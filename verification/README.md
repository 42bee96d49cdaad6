# Manba ingress controller: a verified model

The controller turns ManbaIngress and ManbaCluster resources into servers,
clusters, binds, APIs and routings of the Manba gateway, and keeps the gateway
in step with them. This project models that path from the parsed resources to
the gateway and proves what it promises.

* **The sync engine** (`Sync*.dfy`). `diff.Syncer` is a labelled transition
  system: one producer walking ten phases, any number of workers, the collector
  in `Run`, the goroutine that closes `errChan`, the channels, the counter
  `InFlightOps`, the mirror (in-memory state) and the remote (the gateway). A
  run is a sequence of labels, each one atomic step, so a statement about all
  runs covers all interleavings. `SyncControl` has the counter and the barrier,
  `SyncPlan` what each row needs, `SyncContent` the contents of mirror and remote
  in every reachable state, `SyncLog` the emitted events, `SyncResults` the
  refinement, minimality and reference theorems, `SyncLiveness` termination,
  `SyncReachable` that a clean run always exists, `SyncDriver` steers runs, and
  `SyncLimits` says exactly when the engine can hang, stop silently or fail midway.
  The other modules take the listed state for the gateway; `SyncFrame` carries what
  they say over to a gateway that holds more than was listed.
* **The collections** (`Entities`, `Store`, `Refinement`, `Collections`): the memdb
  tables with a name and an id index, the class that updates them in place, and
  `state.Get`.
* **Target construction** (`Ordering`, `Stable`, `BindOrder`, `Target`, `TargetLaws`,
  `TargetFields`, `TargetBuilds`, `TargetCloses`, `TargetRetry`): `toStable`, `setTargetsIDs`,
  `filterInvalidations`, that the result is a target the engine converges to, what
  `dump.Get` lists of a gateway, and exactly when a retry after a failed update
  converges. `Pipeline`, `Assembly`, `Objects` and `EndToEnd` join the parser to the
  gateway; `Wiring` and `Delivery` say what the gateway then connects, in terms of
  the ingresses and the endpoints behind them.
* **The hash gate** (`Controller`, `GateLimits`): `OnUpdate` over histories of
  updates.
* **The task queue** (`TaskQueue`): enqueuers, the worker and the workqueue as a
  transition system.
* **The parser and the admission validator** (`Naming`, `Parsing`, `Dispatch`,
  `Endpoints`, `Building`, `Assembly`, `Admission`).
* **Status comparison** (`Status`).

`Sums` and `Decimal` hold the counting and number-to-text facts the rest uses.

## What is assumed

* The gateway client is a map by id: commit is an upsert that returns the given
  nonzero id, remove erases, and any call may fail with or without having taken
  effect.
* The id generator (`SnowID`, modulo 20000000 in `pkg/utils/snow.go`) draws ids
  that are distinct, nonzero and not in use, for as many draws as the target has
  named objects (`TargetLaws.Fresh`). `TargetLaws.NewIdsDistinctIff` says what
  happens otherwise. Ids that binds in the gateway name are in use too, whether
  their cluster is still there or not (`TargetRetry.FreshFor`).
* Names in the current state and in the target contain a character that is
  neither a digit nor `-` (`TargetLaws.Textual`). Generated names contain dots,
  addresses a colon. The engine itself assumes only `SyncPlan.WellFormed`: no
  object hides another in the two indexes, and ids were matched by name.
* The hash is injective and never all zeroes (`Controller.Collisionless`).
* Namespaces have no dots, names of ingresses are unique in a namespace, and neither
  has colons, as Kubernetes guarantees; a rule has at most a thousand mirrors and
  splits (`Assembly.WellNamed`).
* The clock does not run backwards (`TaskQueue`), and its value is not negative.
* The scheduler does not give the spin loop of `wait` every turn forever
  (`SyncLiveness.Fair`); used for termination only.

## Where the code differs from what one would expect

* `wait` never looks at `stopChan`: with one failure per worker and one event
  left, `Run` never returns. That is possible exactly when more rows need an event
  than there are workers (`SyncLimits.HangsIff`, `SyncLimits.RunReturnsIff`).
* A `done` channel that fires lets `Run` return no error before the target is
  reached (`SyncLimits.SilentShortfallIff`); the controller passes a nil channel.
* `dump.Get` asks for binds cluster by cluster (`pkg/manba/dump/dump.go:33-46`), so
  a bind whose cluster is gone is never listed, and never removed. Two workers
  suffice for a failure to leave one (`SyncLimits.OrphanReachable`,
  `TargetRetry.OrphanInstance`); it then stays over every later update
  (`Controller.OrphanForever`), and updates that end without error are off their
  target. An update without error is on its target exactly when it started from a
  gateway without such a bind (`TargetRetry.UpdateMatchesIff`).
* The stored hash survives a failed sync, so going back to the last good
  configuration after a failure is skipped (`GateLimits.GateHidesFailure`). That is
  sound exactly when the last success started from a gateway without orphaned binds
  and no failed attempt since asked for a change (`Controller.SkipIsSoundIff`).
* `CompareCluster`, `CompareRouting` and `CompareBind` build copies without
  unrecognized bytes and then compare the originals; only servers and APIs are
  compared modulo unrecognized bytes (`Entities.Same`).
* Ids from 2^63 on are printed signed by `id2Str` and unsigned by `Identifier`, so
  a nameless object with such an id cannot be found
  (`Store.FoundByIdentifierIff`, `Store.HugeIdIsLost`).
* `filterInvalidations` drops binds of rejected clusters, but not API nodes that
  point at them (`Target.NodesMayDangle`; `TargetCloses.TargetClosedIff` says exactly
  when nothing dangles).
* The comparator of binds in `toStable` is no strict weak order
  (`BindOrder.BindOrderIsNotWeak`); `BindOrder.BindOrderCanonicalIff` says exactly when
  the result does not depend on the order the parser produced.
* Two services that share an address with different quotas make the servers, and
  with them the hash, depend on the order of a map range
  (`Building.BuildOrderIff`).
* Names of services run cluster and subset together, so with dots in them a route
  can end up at the service of another cluster (`Naming.ServiceNamesEqualIff`).
* Generated API names run four numbers together, so past nine two APIs of an
  ingress can share a name and one is dropped (`Assembly.WideAPIDropped`).
* The list of APIs in `parseIngressRules` is not reset between the rules of an
  ingress, and `fillOverride` fills a proxy from the first route only: an API also
  dispatches to the clusters of later rules, with the settings of its own first
  route (`Dispatch.DispatchIff`).
* A mirror or split whose cluster no route names is accepted by the validator,
  but its cluster is never built (`Dispatch.ServedIff`).
* A backend port given by name finds no servers (`Endpoints.NamedPortFindsNothing`).
* The comment on `TrafficPolicy` promises each server its share of the quota; from
  2^63 on the shares are negative or zero (`Endpoints.QuotaConservedIff`).

## Model

| member | source | states |
|---|---|---|
| `SyncControl.ControlHolds` | pkg/manba/diff/diff.go:55-182 | In every reachable state: the counter accounts for buffered, held and pending events, all events in flight are of the current phase, and stop flag, error channel, workers and collector agree |
| `SyncControl.CounterIsExact` | pkg/manba/diff/diff.go:134-142 | In every reachable state `InFlightOps` lies in 0..parallelism+11 and, until a send is abandoned, is exactly buffered plus held plus one pending send |
| `SyncControl.Barrier` | pkg/manba/diff/diff.go:47-52 | In every reachable state, failures or not, every event in flight belongs to the producer's phase, so none starts before all of earlier phases completed |
| `SyncControl.CleanReturn` | pkg/manba/diff/diff.go:99-119 | A run that returns no error and was not told to stop saw no event fail and walked all ten phases |
| `SyncPlan.DecideIsPlan` | pkg/manba/diff/api.go:34-98 | Whatever happened to other rows, failed events included, the decision about a listed object is the one event current and target determine for its row |
| `SyncPlan.EventByFields` | pkg/manba/diff/api.go:34-98 | A row needs no event if and only if both states lack it or have it with the same fields; else the event creates, updates or deletes it, with the object of the target, or of the current state for a delete, and the old one for an update |
| `SyncPlan.NoBindUpdate` | pkg/manba/crud/bind.go:57-59 | No event is planned whose raw result would be nil: a bind in both states is unchanged |
| `SyncPlan.PostCarriesOut` | pkg/manba/crud/api.go:13-28 | Post-processing a planned event on a mirror of known objects succeeds, changes exactly its row and keeps the mirror coherent |
| `SyncPlan.RawCarriesOut` | pkg/manba/crud/api.go:38-64 | The raw action of a planned event changes exactly its row in the gateway, to what the event says |
| `SyncPlan.PlanReachesTarget` | pkg/manba/diff/diff.go:121-132 | Contents that are as planned after the last phase match the target in all five kinds |
| `SyncContent.ContentHolds` | pkg/manba/diff/event_loop.go:14-42 | In every reachable state mirror and remote hold for each row the value of the plan before or after its event, according to where that event is, or, after a failure, the value it had at the start |
| `SyncContent.AtBarrier` | pkg/manba/diff/diff.go:47-52 | Between phases of a failure-free run mirror and remote are equal and exactly the plan's value for the phase |
| `SyncContent.Convergence` | pkg/manba/diff/diff.go:55-182 | Every interleaving that returns without error and without being told to stop leaves remote and mirror equal and with exactly the rows of the target, field by field what the target has |
| `SyncLog.LogHolds` | pkg/manba/diff/api.go:49-68 | In every reachable state, whatever failed, the emitted events are planned, none twice, none of a finished phase forgotten, and those of the phase are what the frozen mirror gives |
| `SyncResults.PhasesIgnoreInterleaving` | pkg/manba/diff/api.go:49-98 | In every run, what the producer has emitted in a phase, reading a mirror that workers change, equals what it would emit from the mirror as it stood when the phase was listed |
| `SyncResults.RefinesOneWorker` | pkg/manba/diff/event_loop.go:25-38 | Between phases of a failure-free run the gateway is what one worker applying the emitted events in order would have produced |
| `SyncResults.ReplayRow` | pkg/manba/diff/event_loop.go:25-38 | Replaying planned events in any order sets exactly the rows they name |
| `SyncResults.MinimalPlan` | pkg/manba/diff/api.go:34-98 | In every run, whatever fails, no row gets two events; a row is created only if the target alone has it, deleted only if the current state alone has it, updated only if both have it with some field different; a run through all phases emits all events that are needed |
| `SyncResults.RowsAreOldOrNew` | pkg/manba/diff/event_loop.go:25-38 | In every run, whatever fails, a row of the gateway or the mirror is as it was at the start or as its one event leaves it |
| `SyncResults.SecondRunIsSilent` | pkg/manba/diff/api.go:34-98 | From a current state that matches the target no run emits an event, fails, or changes the gateway |
| `SyncResults.ResyncIsSilent` | pkg/manba/diff/diff.go:55-182 | After a clean run, running again towards the same target emits nothing |
| `SyncResults.TargetStays` | pkg/manba/diff/diff.go:144-182 | Because deletes run in the opposite order of creates, a row pointed at exists at both of two neighbouring phases |
| `SyncResults.ReferencesNeverDangle` | pkg/manba/diff/diff.go:144-182 | If current and target are closed under references, so is the gateway in every state of every run before the first failure |
| `SyncLiveness.Progress` | pkg/manba/diff/diff.go:66-119 | A reachable state in which `Run` has not returned has a step that is no spin, no failing call and no stop signal if and only if it is not stuck |
| `SyncLiveness.StuckOnlySpins` | pkg/manba/diff/diff.go:47-52 | From a stuck state the only step is a spin that changes nothing |
| `SyncLiveness.StuckNeedsFailures` | pkg/manba/diff/event_loop.go:14-23 | Getting stuck takes at least as many failures as there are workers |
| `SyncLiveness.ProducerStepCloser` | pkg/manba/diff/diff.go:121-182 | Every producer step but the spin decreases the measure |
| `SyncLiveness.WorkerStepCloser` | pkg/manba/diff/event_loop.go:14-42 | Every worker step decreases the measure |
| `SyncLiveness.CollectorStepCloser` | pkg/manba/diff/diff.go:91-119 | Every step of the collector and of the closing goroutine decreases the measure |
| `SyncLiveness.RunReturns` | pkg/manba/diff/diff.go:66-119 | In every fair behaviour with fewer failures than workers `Run` returns |
| `SyncReachable.CanStillConverge` | pkg/manba/diff/diff.go:55-182 | From every reachable state of a well-formed pair without failures and without a stop signal, some continuation returns cleanly with the gateway matching the target |
| `SyncLimits.HangsIff` | pkg/manba/diff/diff.go:47-52 | A state from which `Run` never returns is reachable if and only if more rows need an event than there are workers |
| `SyncLimits.HangReachable` | pkg/manba/diff/diff.go:47-52 | Then it is reached by letting all but parallelism + 1 events succeed, failing the next ones and sending the last |
| `SyncLimits.StuckNeedsEvents` | pkg/manba/diff/event_loop.go:14-23 | A stuck state has spent an event on every worker and has one more in the channel |
| `SyncLimits.RunReturnsIff` | pkg/manba/diff/diff.go:66-119 | `Run` returns in every fair behaviour, whatever fails, if and only if no more rows need an event than there are workers |
| `SyncLimits.IssuedAtMost` | pkg/manba/diff/api.go:49-98 | A run issues no more events than rows need, and when as many, all of them |
| `SyncLimits.StoppedRunIsSilent` | pkg/manba/diff/diff.go:97-119 | For any parallelism and any planned event, a run told to stop before its first send returns no error with the gateway unchanged and not matching the target |
| `SyncLimits.SilentShortfallIff` | pkg/manba/diff/diff.go:97-119 | `Run` can return no error short of the target if and only if there was something to do |
| `SyncLimits.FailsMidway` | pkg/manba/diff/event_loop.go:25-38 | For any parallelism and any plan that is not empty, a reply lost after the call took effect makes a run return an error with exactly that row of the gateway changed |
| `SyncLimits.FailsAlone` | pkg/manba/diff/event_loop.go:14-23 | With two workers or more any one planned event can fail without effect while every other one of all ten phases succeeds |
| `SyncLimits.OrphanReachable` | pkg/manba/diff/diff.go:121-182 | So a run can leave a bind without its cluster, whether both were to be deleted or both to be created |
| `SyncFrame.FrameHolds` | pkg/manba/diff/diff.go:55-182 | Started from any gateway, the engine has the same runs as from the listed state, and each row is either as its one event leaves it in both or in each as it started |
| `SyncFrame.OthersStay` | pkg/manba/diff/diff.go:55-182 | In every run, rows that need no event stay as they were in the gateway |
| `SyncFrame.CleanMatchesIff` | pkg/manba/diff/diff.go:55-182 | A clean run leaves the gateway matching the target if and only if every row the gateway held was listed or is one of the target |
| `SyncLimits.OrdinaryConfigHangs` | pkg/manba/diff/diff.go:47-52 | A well-formed configuration with two new servers and one worker has a run that gets stuck |
| `Entities.BindTextInjective` | pkg/manba/state/types.go:189-194 | The text cluster-server determines both ids |
| `Entities.IdTextInjective` | pkg/manba/state/utils.go:80-85 | The signed decimal text of an id determines the id, over all of uint64 |
| `Entities.RowDeterminesIds` | pkg/manba/state/types.go:189-200 | Objects of one kind with equal keys have equal ids, and binds with equal keys are equal |
| `Entities.SameTargets` | pkg/manba/state/api.go:177-191 | Objects that compare as unchanged point at the same rows |
| `Entities.SameIffAgree` | pkg/manba/state/server.go:174-182 | Two versions compare as equal if and only if they have the same fields: for servers and APIs all but unrecognized bytes, node by node; for clusters, routings and binds all |
| `Entities.IdTextIsSigned` | pkg/manba/state/utils.go:80-85 | The text of an id reads back as the id taken as a signed number |
| `Store.OperationsKeepIndexed` | pkg/manba/state/api.go:36-152 | Every add, update and delete, successful or not, keeps each index entry pointing at a stored row with that key |
| `Store.RefusedIff` | pkg/manba/state/api.go:36-151 | What each operation refuses: an empty text, an object without its ids, a taken id, a missing row |
| `Store.GetIsLinearSearch` | pkg/manba/state/api.go:85-95 | In a coherent database `Get` finds exactly the one row that answers to the text by name or id |
| `Store.CoherentIffSearchable` | pkg/manba/state/api.go:64-83 | The indexes agree with a linear search for every text if and only if no row hides another and every name is indexed |
| `Store.NameHidesId` | pkg/manba/state/api.go:64-83 | Otherwise the name index is tried first: an object named like another's id hides it |
| `Store.LookupByKey` | pkg/manba/state/utils.go:61-78 | For an object that fits a coherent database, lookup by id text finds the row with its id and nothing else, although names are tried first |
| `Store.LookupByIdentifier` | pkg/manba/state/types.go:154-160 | For an addressable object that fits a coherent database, lookup by identifier finds the row with its id and nothing else |
| `Store.FoundByIdentifierIff` | pkg/manba/state/utils.go:80-85 | A stored object is found by its own identifier if and only if it has a name or an id below 2^63 |
| `Store.HugeIdIsLost` | pkg/manba/state/utils.go:80-85 | A nameless cluster with id 2^63 is stored and not found by its identifier |
| `Store.AddEffect` | pkg/manba/state/api.go:36-62 | Adding an object that fits succeeds exactly when its id is new, adds exactly that row and keeps the database coherent |
| `Store.UpdateEffect` | pkg/manba/state/api.go:97-120 | Updating an object told apart from all other rows changes exactly the row with its id, also under a new name, and keeps the database coherent |
| `Store.DeleteEffect` | pkg/manba/state/api.go:122-152 | Deleting by identifier removes exactly that row and keeps the database coherent |
| `Refinement.StepRefinesIff` | pkg/manba/state/api.go:36-152 | On coherent indexes an operation does what it does to a plain map by id, and keeps them coherent, if and only if a new object is told apart from the stored rows, an updated one from the others, and no name is the id of a missing object |
| `Refinement.IndexesRefineMapIff` | pkg/manba/state/api.go:36-174 | From the empty state the two indexes agree with the plain map after every operation of a sequence if and only if each operation meets that condition at its step; then `Get` agrees with a linear search |
| `Refinement.RenameAndReuse` | pkg/manba/state/api.go:97-120 | Renaming an object and giving its old name to another meet it |
| `Collections.StateDB.constructor` | pkg/manba/state/state.go:27-51 | A new state is empty |
| `Collections.StateDB.MultiIndexLookup` | pkg/manba/state/utils.go:61-78 | The loop over the indexes finds the name entry, else the id entry |
| `Collections.StateDB.Get` | pkg/manba/state/api.go:85-95 | `Get` refuses the empty text, else returns the lookup's row or not found |
| `Collections.StateDB.Add` | pkg/manba/state/api.go:36-62 | `Add` updates the database in place as specified; when it fails nothing changes |
| `Collections.StateDB.Update` | pkg/manba/state/api.go:97-120 | `Update` likewise |
| `Collections.StateDB.Delete` | pkg/manba/state/api.go:136-152 | `Delete` likewise |
| `Collections.StateDB.GetAll` | pkg/manba/state/api.go:154-174 | `GetAll` lists each row of the kind once, in some order |
| `Collections.AddList` | pkg/manba/state/state.go:60-93 | Adding a list one by one stops at the first error other than a server that exists |
| `Collections.BuildState` | pkg/manba/state/state.go:54-95 | `state.Get` adds APIs, routings, clusters, servers and binds in that order to an empty state |
| `Collections.BuildSucceedsIff` | pkg/manba/state/state.go:54-95 | Building succeeds if and only if every object has an id and no object but a server has the id, or an earlier namesake of the id, of an earlier one |
| `Collections.FirstServerWins` | pkg/manba/state/state.go:81-86 | Of several servers with one id the first is kept |
| `Collections.BuildCoherent` | pkg/manba/state/state.go:54-95 | Rows that do not hide each other all get in, and the state is coherent and holds exactly them |
| `Ordering.LessTotal` | pkg/ingress/status/status.go:350-360 | The string order is total and asymmetric |
| `Ordering.SortPermutes` | pkg/ingress/controller/manba.go:105-166 | Sorting permutes, whatever the comparator |
| `Ordering.SortAscending` | pkg/ingress/controller/manba.go:105-166 | Sorting by a strict weak order gives an ascending list |
| `Ordering.AscendingUnique` | pkg/ingress/status/status.go:142-164 | Two ascending lists with the same elements are equal when the order separates them |
| `Ordering.SortCanonical` | pkg/ingress/controller/manba.go:114-157 | With distinct keys the sorted list does not depend on the input order |
| `Stable.RangeProxies` | pkg/ingress/controller/manba.go:100-107 | The proxies of an API come out once each, sorted by cluster name |
| `Stable.ToStable` | pkg/ingress/controller/manba.go:95-167 | `toStable` lists and sorts the five kinds, with a bind for each server of each cluster |
| `Stable.StableKeeps` | pkg/ingress/controller/manba.go:95-166 | The lists have the objects of the parser and no others, each API with the proxies of its map, and a bind for exactly the servers of each cluster |
| `Stable.ProxiesUnique` | pkg/ingress/controller/manba.go:100-107 | The sorted proxies do not depend on the order of the map range |
| `Stable.ToStableCanonical` | pkg/ingress/controller/manba.go:95-167 | For any permutation of the parser's output the API, server, cluster and routing lists are identical, and the binds equal as multisets |
| `BindOrder.BindOrderIsNotWeak` | pkg/ingress/controller/manba.go:161-163 | The comparator of binds is a strict partial order and no strict weak order |
| `BindOrder.BindOrderDependsOnInput` | pkg/ingress/controller/manba.go:141-163 | An instance: with two clusters of one server each the binds come out in the order of the clusters |
| `BindOrder.SortCanonicalIff` | pkg/ingress/controller/manba.go:161-163 | Sorting by a strict partial order gives the same list for every order of the input if and only if any two different elements are comparable |
| `BindOrder.AlignedSorts` | pkg/ingress/controller/manba.go:141-163 | When of any two clusters the one with the lesser name has the lesser addresses, the sorted binds are those of the clusters sorted by name |
| `BindOrder.BindOrderCanonicalIff` | pkg/ingress/controller/manba.go:95-166 | `toStable` makes the same target of every order of the parser's output if and only if of any two clusters the one with the lesser name has the lesser addresses throughout |
| `Target.AssignID` | pkg/ingress/controller/manba.go:175-188 | An object without id takes its namesake's id, or a fresh one, or the error of the lookup; nothing but its id changes, and an id it has stays |
| `Target.AssignIDs` | pkg/ingress/controller/manba.go:175-203 | The loop does so for a list, in place and order, and records the ids by name, stopping at an error |
| `Target.FillBinds` | pkg/ingress/controller/manba.go:205-222 | A bind gets ids if its cluster and its server are known |
| `Target.FillAPIs` | pkg/ingress/controller/manba.go:224-245 | Every proxy becomes a node with its cluster's id, or zero, and the proxy's own options; no other field of the API changes |
| `Target.FillRoutings` | pkg/ingress/controller/manba.go:247-269 | Every routing keeps its id, name and settings and points at the cluster and the API it names where these are known, and else where it pointed before |
| `Target.SetTargetsIDs` | pkg/ingress/controller/manba.go:170-272 | `setTargetsIDs` as a whole; nothing is added, dropped or moved, and no field changes but ids and the nodes of APIs |
| `TargetFields.SetIDsLinks` | pkg/ingress/controller/manba.go:205-269 | Every node, routing and bind gets the ids of the objects it names; a node without such a cluster gets zero, a routing stays as it was, and a bind without both gets none |
| `Target.FilterInvalidations` | pkg/ingress/controller/manba.go:274-321 | `filterInvalidations` as a whole: of each kind exactly the objects that pass their validator, and the binds between objects that do |
| `TargetFields.FilteredInOrder` | pkg/ingress/controller/manba.go:279-319 | The survivors of each kind stay in their order |
| `TargetFields.PreparedIsValid` | pkg/ingress/controller/manba.go:58-86 | An object other than a bind is in the prepared target if and only if it passes its validator and was resolved |
| `Target.BindsSurviveTogether` | pkg/ingress/controller/manba.go:297-303 | Whatever the validators reject, a surviving bind joins a surviving cluster and a surviving server |
| `Target.NodesMayDangle` | pkg/ingress/controller/manba.go:305-311 | One API with a proxy to one cluster that the validator rejects: after `setTargetsIDs` and the filter the API still points at it |
| `TargetLaws.GetFindsNamesake` | pkg/ingress/controller/manba.go:175-186 | By a textual name `Get` finds the current object of that name and no other |
| `TargetLaws.AssignResolves` | pkg/ingress/controller/manba.go:175-203 | Every object of a list keeps the id of its current namesake or gets one of the ids drawn, and keeps all else |
| `TargetLaws.AssignDistinct` | pkg/ingress/controller/manba.go:170-272 | Distinct names get distinct ids |
| `TargetLaws.NewIdsDistinctIff` | pkg/utils/snow.go:12-15 | Names new to Manba get distinct ids if and only if the generator does not repeat itself |
| `TargetLaws.ResolvedSound` | pkg/ingress/controller/manba.go:170-272 | `setTargetsIDs` succeeds, and no object of the result hides another or a current one |
| `TargetLaws.FilteredSound` | pkg/ingress/controller/manba.go:274-321 | Filtering keeps that |
| `TargetBuilds.IdMapInjective` | pkg/ingress/controller/manba.go:187-202 | The name-to-id maps are injective and hold no zero |
| `TargetBuilds.BindKeptIff` | pkg/ingress/controller/manba.go:297-303 | A bind is kept if and only if the cluster and the server it names are kept |
| `TargetBuilds.TargetBuildsIff` | pkg/ingress/controller/manba.go:76-83 | The target state builds if and only if no two surviving binds name the same cluster and server, and then current and target are fit for the engine |
| `TargetBuilds.UpdateConverges` | pkg/ingress/controller/manba.go:58-93 | From a complete listing a clean run after `setTargetsIDs`, `filterInvalidations` and `state.Get` leaves the gateway with exactly the prepared objects, and the state ordinary again |
| `TargetRetry.RunLeavesHabitable` | pkg/ingress/controller/manba.go:88-92 | Whatever was listed and whatever fails in a run, the objects in the gateway do not hide each other and can be found |
| `TargetRetry.NextUpdateStartsOrdinary` | pkg/manba/dump/dump.go:10-69 | After any run from any such gateway, clean, failed or stopped, the state the next update builds from a listing in any order is ordinary and is everything but the binds of missing clusters |
| `TargetRetry.UpdateMatchesIff` | pkg/manba/dump/dump.go:33-46 | A clean update leaves the gateway matching its target if and only if no bind of the gateway it started from names a missing cluster |
| `TargetRetry.OrphanStays` | pkg/manba/dump/dump.go:33-46 | No run of any update, clean or not, touches such a bind or brings its cluster back |
| `TargetRetry.UpdateCarriesIff` | pkg/ingress/controller/manba.go:58-93 | After a clean update the gateway holds all of the prepared target, and nothing else if and only if there was no such bind |
| `TargetRetry.RetryConvergesIff` | pkg/ingress/controller/manba.go:34-36 | A clean retry brings the gateway to its target, whatever the run before it left behind, if and only if that run left no such bind |
| `TargetRetry.CompleteListing` | pkg/manba/dump/dump.go:10-69 | From a gateway without such binds the update is the run over the complete listing that the engine's theorems speak of |
| `TargetRetry.OrphanInstance` | pkg/manba/dump/dump.go:33-46 | An instance: a server, a cluster and their bind to be deleted by two workers, and the bind is left |
| `TargetCloses.TargetClosedIff` | pkg/ingress/controller/manba.go:235-269 | The target state is closed under references if and only if every surviving API's proxies name surviving clusters and every surviving routing a surviving cluster and API |
| `TargetCloses.UpdateNeverDangles` | pkg/ingress/controller/manba.go:58-93 | Then no reference in the gateway dangles at any point of any run of the update before the first failure |
| `Pipeline.StableIsPresentable` | pkg/ingress/controller/manba.go:58-59 | What `toStable` makes of a parser state with distinct names is a target the following steps handle |
| `Pipeline.ParserToGateway` | pkg/ingress/controller/manba.go:58-93 | A parser state builds if and only if no cluster that passes the validators lists a server that passes twice; then every clean run brings the gateway to it |
| `Assembly.BuiltIsParsed` | pkg/ingress/controller/parser/parser.go:111-163 | What `Build` makes of the parsed ingresses is such a parser state, in whatever order the services are ranged over |
| `EndToEnd.KeptOnceIff` | pkg/ingress/controller/parser/parser.go:385-438 | A cluster lists no passing server twice if and only if no two Kubernetes services that the search reaches give it |
| `EndToEnd.ServersBuiltIff` | pkg/ingress/controller/parser/parser.go:155-159 | `Build` makes a server of an address if and only if some service has a Kubernetes service that gives it |
| `EndToEnd.IngressesBuildIff` | pkg/ingress/controller/manba.go:58-93 | From parsed ingresses and the endpoints of their services: the target builds if and only if no cluster and server that both pass the validators are given by two Kubernetes services that the search reaches |
| `EndToEnd.IngressesToGateway` | pkg/ingress/controller/manba.go:58-93 | Then every clean run from any gateway puts all of it there, and leaves nothing else if and only if the gateway had no bind of a missing cluster |
| `Wiring.TargetBoundIff` | pkg/ingress/controller/manba.go:205-222 | The target binds a cluster to a server, by name, if and only if the raw target does and both survive |
| `Wiring.TargetDispatchedIff` | pkg/ingress/controller/manba.go:224-245 | An API has a node with these options to a cluster if and only if it has such a proxy and both survive |
| `Wiring.TargetJoinedIff` | pkg/ingress/controller/manba.go:247-269 | A routing joins an API to a cluster if and only if the raw target has it and all three survive |
| `Delivery.BoundIff` | pkg/ingress/controller/manba.go:58-93 | After an update without error the gateway binds the cluster of a service to an address if, and unless an orphan was there before only if, one of its Kubernetes services gives it and both pass the validators |
| `Delivery.DispatchedIff` | pkg/ingress/controller/manba.go:58-93 | Likewise, unless two different APIs share a name, it lets an API dispatch to a cluster if and only if the rule of the API has a route and that or a later rule has one there that is kept, with the settings of the rule's first route |
| `Delivery.JoinedIff` | pkg/ingress/controller/manba.go:58-93 | Likewise, unless two different routings share a name, the routing of each mirror and split leads from its API to its cluster with its configuration, and nowhere else |
| `Controller.ManbaController.OnUpdate` | pkg/ingress/controller/manba.go:37-56 | `OnUpdate` skips on an equal hash, else syncs and stores the hash only on success |
| `Controller.StoredHash` | pkg/ingress/controller/manba.go:51-55 | Over every sequence of updates a nonzero stored hash is that of the last successful target |
| `Controller.SuccessMatchesIff` | pkg/ingress/controller/manba.go:58-93 | A sync that ends without error leaves the gateway matching its target if and only if no bind of the gateway it started from names a missing cluster |
| `Controller.SkipIsSound` | pkg/ingress/controller/manba.go:45-48 | A skipped update finds the gateway matching the target of the last success if that success started without such binds and no attempt that failed since asked for a change of what it left |
| `Controller.SkipIsSoundIff` | pkg/ingress/controller/manba.go:45-56 | It is sure to, over everything the engine can have done in the attempts that failed, if and only if both hold |
| `Controller.UpsetCanFail` | pkg/ingress/controller/manba.go:88-92 | A target that asks for a change can fail in the engine with the gateway changed |
| `Controller.GatewayStaysHabitable` | pkg/ingress/controller/manba.go:37-56 | Over every history, binds of missing clusters included, an update can start from a listing of the gateway |
| `Controller.OrphanForever` | pkg/manba/dump/dump.go:33-46 | Over every history a bind whose cluster is missing is never removed, and its cluster never comes back |
| `Controller.NoSuccessMatchesAfterwards` | pkg/ingress/controller/manba.go:37-56 | No sync after it that ends without error leaves the gateway matching its target |
| `Controller.FailureOrphans` | pkg/ingress/controller/manba.go:88-92 | With two workers, every update that is to delete a bind and its cluster can fail so that the bind is left without it |
| `GateLimits.FailureHidden` | pkg/ingress/controller/manba.go:45-56 | After A was synced, for any number of workers and any B that asks for a change, the engine can fail on B so that A is skipped with the gateway off its target |
| `GateLimits.AttemptCanSucceed` | pkg/ingress/controller/manba.go:58-93 | Every update whose target builds can end without error, from whatever gateway |
| `GateLimits.GateHidesFailure` | pkg/ingress/controller/manba.go:45-56 | An instance: nothing synced, two servers fail midway, nothing skipped with a server left over |
| `TaskQueue.BookkeepingHolds` | pkg/ingress/task/queue.go:88-121 | In every reachable state the queue holds, once each, what is dirty and not being processed, and what is processed is what the worker holds |
| `TaskQueue.ShutdownDrains` | pkg/ingress/task/queue.go:135-138 | When shutdown has been acknowledged nothing is queued, dirty or in process |
| `TaskQueue.InHandStep` | pkg/ingress/task/queue.go:98-118 | An element the worker holds is skipped only in favour of a later sync, is covered when its sync succeeds, and returns with a newer stamp when it fails |
| `TaskQueue.SkippedIff` | pkg/ingress/task/queue.go:97-117 | Over every run `lastSync` is when the last successful sync began, an element is skipped if and only if some successful sync began after it was stamped, and no sync runs on such an element |
| `TaskQueue.FailureComesBack` | pkg/ingress/task/queue.go:108-113 | A failed sync returns its key with the time of the failure, so that only a sync that begins later can make it be skipped |
| `TaskQueue.NoLostUpdate` | pkg/ingress/task/queue.go:60-121 | In every state of every run before shutdown each accepted request is covered by a successful sync that began after it, or is stood for by an element of its key and no older |
| `TaskQueue.QuietMeansSynced` | pkg/ingress/task/queue.go:60-121 | When queue, rate limiter and worker rest, every request was followed by the beginning of a successful sync |
| `Naming.NameInstances` | pkg/ingress/controller/parser/parser.go:195-230 | The two formats, by an instance of each |
| `Naming.NamesEqualIff` | pkg/ingress/controller/parser/parser.go:195-195 | For dotless namespaces two API names are equal if and only if namespace, ingress and the run of digits are |
| `Naming.DigitsDetermine` | pkg/ingress/controller/parser/parser.go:195-195 | The digits determine all four indices as long as only one of them goes past nine |
| `Naming.NamesDistinctWhenNarrow` | pkg/ingress/controller/parser/parser.go:195-195 | Within that bound equal names mean equal namespace, ingress and indices |
| `Naming.ServiceNamesEqualIff` | pkg/ingress/controller/parser/parser.go:230-230 | For dotless namespaces and ports two service names are equal if and only if namespace and port are, and the dotted joints of cluster and subset |
| `Naming.ServiceNamesDistinct` | pkg/ingress/controller/parser/parser.go:230-230 | With dotless subsets a service name determines all four parts |
| `Naming.DottedSubsetsCollide` | pkg/ingress/controller/parser/parser.go:230-230 | With a dot in cluster or subset two clusters can share a service name |
| `Assembly.APIIsNoRouting` | pkg/ingress/controller/parser/parser.go:357-369 | An API and a routing share no name while a rule has at most a thousand mirrors and splits |
| `Assembly.SameKeySameKind` | pkg/ingress/controller/parser/parser.go:128-160 | Candidates of different kinds never share a key |
| `Assembly.APIsKeptIff` | pkg/ingress/controller/parser/parser.go:128-142 | `Build` keeps every parsed API, in whatever order the services come, if and only if no two different ones share a name |
| `Assembly.NarrowKeepsAPIs` | pkg/ingress/controller/parser/parser.go:128-142 | While at most one index of an ingress goes past nine, `Build` drops no API |
| `Assembly.NarrowKeepsRest` | pkg/ingress/controller/parser/parser.go:142-160 | Nor any routing or cluster |
| `Assembly.WideAPIDropped` | pkg/ingress/controller/parser/parser.go:128-142 | Of the APIs (1,1,10) and (1,11,0) of an ingress, unless they are the same object, `Build` drops one |
| `Assembly.WideIngressAttaches` | pkg/ingress/controller/parser/parser.go:165-273 | An ingress with twelve matches and one good route has both |
| `Objects.APIsStem` | pkg/ingress/controller/parser/parser.go:179-224 | Every API of the built state is that of an attached match rule: its name, configuration, proxies and their settings |
| `Objects.APIsBuiltIff` | pkg/ingress/controller/parser/parser.go:128-142 | Unless two different APIs share a name, a parser API of that name is in the built state if and only if it is just that |
| `Objects.RoutingsStem` | pkg/ingress/controller/parser/parser.go:343-373 | Every routing of the built state joins an attached API to the cluster of one of its rule's mirrors or splits, with its name and configuration |
| `Objects.RoutingsBuilt` | pkg/ingress/controller/parser/parser.go:358-373 | Unless two different routings share a name, all of these are there |
| `Naming.WideIndicesCollide` | pkg/ingress/controller/parser/parser.go:195-195 | Without it (1,1,10) and (1,11,0) share a name |
| `Parsing.GetClusterSubset` | pkg/ingress/controller/parser/parser.go:524-533 | The first subset of that name, or none |
| `Parsing.ParseIngressRules` | pkg/ingress/controller/parser/parser.go:165-273 | The nested loops attach, at each route, the APIs gathered so far to the route's service |
| `Parsing.ServiceExistsIff` | pkg/ingress/controller/parser/parser.go:226-265 | A service exists if and only if some route to it is not passed over |
| `Parsing.AttachedIff` | pkg/ingress/controller/parser/parser.go:226-265 | An API is attached to a service if and only if it had been gathered by the time of such a route |
| `Dispatch.FillProxies` | pkg/ingress/controller/parser/parser.go:320-340 | In any order of services an API gets a proxy for each service it is attached to, with the settings of the first route of its rule, unless the rule has no route |
| `Dispatch.AttachedByLaterRules` | pkg/ingress/controller/parser/parser.go:179-265 | An API is attached to a service if and only if its own rule or a later rule of its ingress has a route there that is not passed over, because it or an earlier route to the service resolves |
| `Dispatch.ServedIff` | pkg/ingress/controller/parser/parser.go:226-265 | A service exists if and only if some route to it resolves |
| `Dispatch.DispatchIff` | pkg/ingress/controller/parser/parser.go:320-340 | An API dispatches to a cluster if and only if its rule has a route and that or a later rule has one there that is not passed over, always with the settings of its rule's first route |
| `Dispatch.KeepsToItsRuleIff` | pkg/ingress/controller/parser/parser.go:179-265 | An API keeps to the clusters its own rule names if and only if later rules of its ingress have no route kept to anywhere else |
| `Dispatch.SecondRuleSpills` | pkg/ingress/controller/parser/parser.go:179-265 | Two rules with one route each suffice for the first rule's API to dispatch to the second rule's cluster |
| `Endpoints.TextInjective` | pkg/utils/types.go:14-16 | Address:port texts tell endpoints apart, IPv6 addresses included |
| `Endpoints.GetEndpoints` | pkg/ingress/controller/parser/parser.go:443-522 | Each endpoint the service offers under the port, exactly once, in all three branches: for a service with endpoints the addresses under each TCP port of the service port's name, if that has one, with a positive number |
| `Endpoints.GetServiceEndpoints` | pkg/ingress/controller/parser/parser.go:376-440 | Each address comes out once for every service that contributes it before a portless external service ends the search |
| `Endpoints.ContributesIff` | pkg/ingress/controller/parser/parser.go:443-522 | A service with endpoints gives host:port if and only if a subset has that host and, among its TCP ports of the matching name, the backend port |
| `Endpoints.PortlessContributesIff` | pkg/ingress/controller/parser/parser.go:400-417 | An external service without ports gives its name under the backend port if and only if that is the plain text of a positive int |
| `Endpoints.ExternalContributesIff` | pkg/ingress/controller/parser/parser.go:461-474 | One with ports gives it if and only if its matching port targets the backend port by number |
| `Endpoints.FirstMatchIs` | pkg/ingress/controller/parser/parser.go:390-398 | The matching port is the first whose number, target or name reads like the backend port |
| `Endpoints.AtoiOfItoa` | pkg/ingress/controller/parser/parser.go:392-403 | The texts of numbers read back; those beyond int are refused, and saturate in `IntValue` |
| `Endpoints.NumberIffSpelled` | pkg/ingress/controller/parser/parser.go:392-403 | A text reads as a number if and only if it is an optional sign and digits; others are refused, and zero to `IntValue` |
| `Endpoints.CopiesAtLeastTwo` | pkg/ingress/controller/parser/parser.go:385-438 | A cluster lists an address twice if and only if two services that the search reaches have the endpoint |
| `Endpoints.SearchEndsThere` | pkg/ingress/controller/parser/parser.go:400-410 | A portless external service met with a backend port that is no number ends the search: later services give nothing |
| `Endpoints.NamedPortFindsNothing` | pkg/ingress/controller/parser/parser.go:425-428 | A backend port that is not a number yields no server |
| `Endpoints.FillQuota` | pkg/ingress/controller/parser/parser.go:293-311 | Every server gets the same truncated share of the policy's quota and its circuit breaker |
| `Endpoints.QuotaConservedIff` | pkg/ingress/controller/parser/parser.go:293-302 | The shares never exceed the quota, and fall short of it by less than the number of servers if and only if it is below 2^63 |
| `Building.Build` | pkg/ingress/controller/parser/parser.go:111-163 | `Build` keeps the first of each key of what the services offer in order; the state has objects of the services only, and one for every key there is |
| `Building.OfferedIff` | pkg/ingress/controller/parser/parser.go:137-160 | The candidates are exactly the APIs, routings, clusters and servers of the services |
| `Building.SiftKeepsKeys` | pkg/ingress/controller/parser/parser.go:128-135 | Every key survives and none survives twice |
| `Building.FirstOfKey` | pkg/ingress/controller/parser/parser.go:128-135 | What survives under a key is the first candidate that has it |
| `Building.NothingLostIff` | pkg/ingress/controller/parser/parser.go:128-160 | No object is lost, however often it is offered, if and only if candidates with equal keys are equal |
| `Building.BuildOrderIff` | pkg/ingress/controller/parser/parser.go:137-160 | `Build` keeps the same objects for every order of the services if and only if services that offer a key offer the same object first |
| `Building.AgreedOrderIsStable` | pkg/ingress/controller/manba.go:95-167 | Then `toStable` makes the same lists of all kinds but binds, and of these the same multiset |
| `Building.BuildIsDistinct` | pkg/ingress/controller/parser/parser.go:128-160 | The state handed to `toStable` has distinct names in every kind |
| `Admission.IsClusterExist` | pkg/admission/validator.go:69-84 | Tells a cluster with that subset from a missing one, and both from a failed fetch |
| `Admission.IsMatchValid` | pkg/admission/validator.go:86-103 | A match is valid if and only if all its values compile |
| `Admission.ValidateManbaIngress` | pkg/admission/validator.go:34-67 | Accepts exactly the ingresses whose matches compile and in which every route, every mirror and every split names an existing subset of an existing cluster; an error exactly when the matches compile and fetching the first cluster that does not resolve fails |
| `Admission.AcceptedRoutesAreKept` | pkg/ingress/controller/parser/parser.go:226-265 | Of an ingress accepted over the same clusters the parser passes over no route, whatever other ingresses there are, and the service of each exists |
| `Admission.AcceptedAPIsAttached` | pkg/ingress/controller/parser/parser.go:179-265 | With all the APIs of its rule and of the rules before it attached |
| `Status.BeforeIsTotal` | pkg/ingress/status/status.go:350-360 | The order on addresses is total and asymmetric on (hostname, IP) |
| `Status.BeforeIsTransitive` | pkg/ingress/status/status.go:350-360 | It is transitive |
| `Status.IngressSliceEqual` | pkg/ingress/status/status.go:362-376 | The loop decides equality of two lists |
| `Status.SortedEqualIff` | pkg/ingress/status/status.go:149-155 | Sorted lists are equal if and only if the lists have the same addresses as multisets |
| `Status.UpdateStatus` | pkg/ingress/status/status.go:142-164 | An ingress is updated if and only if its addresses differ from the new ones as a multiset |

## Left out

- The files for clusters, routings and servers under `pkg/manba/state`, `pkg/manba/diff` and `pkg/manba/crud`: one entity type with five kinds stands for them and for APIs and binds.
- Sync: aliasing between the target's objects, the events and the mirror; objects are values, so the id a raw action writes back is the id the object already has.
- Sync: data races on the mirror's Go structures; memdb transactions are atomic steps.
- Sync: the error `Run` returns at once for a parallelism below one, and errors of memdb itself.
- Sync: the int32 width of the counter, which `SyncControl.CounterIsExact` shows irrelevant below 2^31 - 11 workers.
- `Collections.StateDB.GetAll`: leaves the order open, because nothing depends on it; memdb's is by name.
- `BindCollection.Update`: modelled as the refusal the differ's binds meet; it is never called.
- `BindOrder.BindOrderCanonicalIff`: the order of binds follows an insertion sort, which is what `sort.SliceStable` does up to 20 elements; beyond that the half that aligned clusters sort alike still describes any stable sort, the other half only this one.
- The `pb.Validate` functions and regular-expression compilation are arbitrary predicates; their sources are not part of this model.
- The contents of objects beyond ids, names, references and nodes, which are carried as opaque texts; `Metadata`, TLS fields, and the order of validations inside a route.
- Text of diffs, logging, and the operation counters in `Stats`, which workers update without synchronisation.
- `Endpoints.GetServiceEndpoints`: does not model an error from listing services, which ends `Build`.
- `Parsing.ParseIngressRules`: takes the ingresses already ordered by creation time.
- `Building.Build`: takes the services in the order the range over the map gives; `Assembly` fills them from the parsed ingresses, and `EndToEnd` ties the servers of a service to its endpoints.
- The rates and conditions of mirrors and splits, which are carried as opaque texts.
- `TaskQueue.NoLostUpdate`: makes no claim after shutdown, when the queue drops what is added and `syncManbaIngress` returns nil without syncing.
- `Enqueue` with an object that has no key: it is logged and dropped, so it is no accepted request.
- Rate limiting delays and real time: the rate limiter may hold an element for any time.
- `updateStatus`: issuing the updates, its worker pool, and finding the addresses to publish.
- Leader election, informers, the generated client, the webhook server and process setup.
