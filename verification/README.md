# Orbit, verified

A Dafny model of Orbit, an in-memory service that ingests telemetry of devices, detects anomalies
by policy, gathers them into incidents, and runs response actions over a job queue.

The model has two views of one store.

* **Calls.** `Calls.dfy` says what each service call does to the whole system as a function of the
  state before it. A call carries what it draws from outside: clock readings, the answer of each map
  scan, and whether its context was live where it is checked. `Service.dfy` holds the service object
  itself, whose methods run over the mutable store (`Store.dfy`), the queue and the clock, and each is
  proved to do what `Calls.dfy` says of some possible choice, and to answer as `Answers.dfy` says in
  terms of the stored records and the request alone. `Invariant.dfy` states one inductive invariant
  over all record maps and the queue; `Preservation.dfy`, `Evaluation.dfy` and `Runs.dfy` prove it of
  every call and every run; `Guarantees.dfy`, `Lifecycles.dfy`, `Draining.dfy` and `Sampling.dfy` draw
  the consequences, and `Witnesses.dfy` runs a fresh service to where they end.
* **Interleavings.** Every store operation is one step, and a client holds a private copy between
  steps. `Alone.dfy` shows that a client no other interrupts does what its call does. `Versioned.dfy`
  treats devices and streams, whose updates check a version; `Records.dfy` treats incidents, anomalies,
  actions and evidence, whose updates do not: `Overtaking.dfy` says what that costs incidents and their
  links, `Executions.dfy` what it costs actions, `Spacing.dfy` and `Nearness.dfy` when open incidents stay
  apart, and `Workers.dfy` that a drain ends all the same. `Releases.dfy` treats policies, whose updates
  check a version that never changes.

`IncidentFacts.dfy` and `Linkage.dfy` define what the two views share: the facts each incident carries,
the two-way links and the distance between open incidents. `Telemetry.dfy`, `Decimal.dfy`,
`Limiter.dfy`, `Metrics.dfy` and `Audit.dfy` are the self-contained algorithms.

`dafny verify dfyconfig.toml` checks everything.

## Assumptions

* Times are integer nanoseconds, and 0 is Go's zero time. The clock never goes back, and starts more
  than ten minutes after the zero time.
* A float64 is a `real`: rounding, NaN and infinities are not part of this model.
* The counter behind generated identifiers is unbounded; it is not incremented concurrently in the
  call view, and in the interleaving view generated identifiers are arbitrary and may be shared.
* A map scan gives its keys in an arbitrary order.
* Statuses, kinds and comparators are strings in the source; a value outside the known ones is a
  constructor that carries the text.

## Where the code differs from what one might expect

* The signed printer gives "-" for the least 64-bit integer (`Decimal.PrintedReadsBack`).
* The limiter admits up to 2*limit - 1 calls within one window's length (`Limiter.SlidingBoundIsTight`,
  `Limiter.LimitHoldsOnlyForOne`).
* A same-status request succeeds at version 1 and conflicts at every other version
  (`Service.App.TransitionDevice`); at version 1 it can restore an old copy over newer records
  (`Versioned.RetiredMayReturn`).
* A context that ends during an evaluation, or a direct evaluation for a blank device, leaves an
  anomaly that names no incident (`Guarantees.AnomaliesArePartitioned`,
  `Witnesses.EndedContextLeavesAnOrphan`).
* Publishing reads the clock twice, so another policy can take effect in between
  (`Guarantees.PublishedIsAnswer`, `Witnesses.PublishMayBeOvertaken`); two clients can also both pass
  the version test before either publishes (`Releases.CrossingPublishesAreNotOnly`).
* Concurrent writes of one incident can lose an anomaly or take up a closed incident again
  (`Overtaking.LostUpdateBreaksThePartition`, `Overtaking.ClosedMayReopen`).
* An action that is cancelled while it is being started runs (`Executions.CancelledMayRun`).
* An above rule fires above the smaller of its bounds and a below rule below the larger, while the
  message names the other bound (`Telemetry.RuleIsReportedExactly`).
* A rule looks at the last listed sample, which is the earliest to arrive, because samples are listed
  latest first (`Evaluation.EvaluationReportsExactly`, `Store.ListedIs`).
* An evaluation returns its anomalies as they were before they were linked (`Service.App.EvaluateTelemetry`).
* A rollup stores nothing when a caller has added evidence under the number it draws
  (`Guarantees.RollupStoresUnlessTaken`, `Witnesses.TakenNumberStoresNothing`).
* Two concurrent evaluations can open two incidents of one device and signal at the same time, and a
  closed incident taken up again can be as old as one opened in its place
  (`Spacing.CrossingBreaksTheSeparation`, `Nearness.RevivalBreaksTheSeparation`).
* Labels that contain separators can share a counter (`Metrics.CleanKeysDiffer`, `Metrics.KeysMayCollide`).

## Model

| member | source | states |
|---|---|---|
| Guarantees.AnomaliesArePartitioned | internal/service/telemetry.go:88-108 | after any run from a fresh service, every anomaly names exactly one incident that lists it exactly once, and every listed anomaly points back, if and only if no correlation of the run had a dead context or a blank device |
| Guarantees.JobsLinkUnlessCancelled | internal/service/app.go:104-111 | an evaluation made for a queued job never meets a blank device, so it links all its anomalies exactly when its context stays live at every correlation |
| Guarantees.OpenIncidentsAreSeparated | internal/service/incidents.go:17-25 | in every reachable state two distinct incidents that are not closed and list anomalies of one device and signal were opened more than ten minutes apart, whichever incident each map scan picked |
| Guarantees.AnomaliesJoinInTime | internal/service/incidents.go:17-36 | in every reachable state an incident's first anomaly was created no later than the incident was opened, and every other one after that and at most ten minutes later |
| Guarantees.IncidentsCarryTheirFacts | internal/domain/incident.go:64-138 | every stored incident lists only stored anomalies of its device and of one signal without repeats, has their greatest severity, lists only its own actions and evidence, and if closed has evidence and opened <= resolved <= closed |
| Guarantees.ClosedIsFrozen | internal/service/incidents.go:60-80 | at call granularity no later call changes any field of a closed incident |
| Guarantees.FinishedActionsAreFrozen | internal/service/actions.go:59-125 | at call granularity a succeeded or cancelled action is never changed again |
| Guarantees.ActionListedUnlessClosed | internal/service/actions.go:35-39 | a created action is listed by its incident exactly when the incident was not closed; the record is stored either way |
| Guarantees.RollupStoresUnlessTaken | internal/service/evidence.go:53-73 | in every reachable state the rollup of a stored incident stores its evidence exactly when the number it draws is not already taken by evidence a caller added; what it stores is listed exactly when the incident is not closed |
| Witnesses.TakenNumberStoresNothing | internal/service/evidence.go:63-69 | a run from a fresh service after which the queued rollup of an open incident stores nothing, because a caller has used its number |
| Witnesses.EndedContextLeavesAnOrphan | internal/service/incidents.go:13-16 | a run from a fresh service that ends without the partition: a context ended before the correlation |
| Witnesses.PublishMayBeOvertaken | internal/service/policies.go:66-71 | a reachable state in which a policy published as effective does not become the only answer |
| Guarantees.ActiveAnswerIsMaximal | internal/store/memory.go:169-199 | ActivePolicy may answer with exactly the active policies of the device that have the greatest active version, and fails exactly when none is active |
| Guarantees.ActiveVersionNeverDecreases | internal/service/policies.go:58-93 | over any run of calls the version in force for a device never decreases |
| Guarantees.PublishedIsAnswer | internal/service/policies.go:58-78 | a policy published while already effective is the only possible answer at its publishing time, if and only if no policy at least as new takes effect between the two clock readings of the call |
| Runs.RunKeeps | internal/service/app.go:33-142 | the invariant of the whole system holds after every run of calls, and between any two states of a run records only evolve as they may |
| Runs.CallKeeps | internal/service/app.go:33-142 | each service call and each queue step keeps the invariant |
| Preservation.OneTurnKeeps | internal/service/telemetry.go:88-108 | one turn of the loop over detections (put anomaly, correlate, link) keeps the invariant, the separation of open incidents included |
| Preservation.TurnOrphans | internal/service/incidents.go:13-37 | a turn leaves its anomaly unlinked exactly when its context was dead or its device blank |
| Evaluation.PicksOrphans | internal/service/telemetry.go:88-108 | an evaluation leaves no anomaly unlinked exactly when none of its turns does |
| Evaluation.EvaluationFinds | internal/service/telemetry.go:68-87 | an evaluation creates nothing exactly when its policy, its stream or every sample is missing; otherwise its window is exact and every detection has severity 1 to 5 |
| Linkage.PartitionIffNoOrphans | internal/service/incidents.go:13-37 | under the invariant the links form a partition exactly when no anomaly is unlinked |
| Linkage.CoreAfterMerge | internal/service/incidents.go:17-21 | merging an anomaly into the incident a scan found keeps links, facts and separation |
| Linkage.CoreAfterOpen | internal/service/incidents.go:22-36 | opening an incident when the scan found none keeps links, facts and separation |
| IncidentFacts.GoodIsStable | internal/domain/incident.go:15-62 | an incident's facts outlive every growth of the store and every advance of the clock |
| IncidentFacts.GoodAfterAddAnomaly | internal/domain/incident.go:64-80 | adding an anomaly of the incident's device and signal keeps its facts, the maximum severity included |
| IncidentFacts.GoodAfterTransition | internal/domain/incident.go:82-114 | every allowed transition, closing gated by ReadyToClose, keeps the incident's facts |
| IncidentFacts.BudgetIsKept | internal/domain/action.go:71-98 | Start, Finish and Cancel keep the attempt budget and never change what was requested |
| Guarantees.IndexIsTheInverse | internal/store/memory.go:327-362 | in every reachable state key k maps to id a exactly when stored action a carries k, so at most one action exists per key |
| Service.App.CreateDevice | internal/service/devices.go:21-36 | the exact answer for every input: invalid when a text is blank, exists when the id is taken, otherwise a version 1 pending device with trimmed texts, which is stored; nothing else changes |
| Service.App.TransitionDevice | internal/service/devices.go:52-72 | another status is granted exactly when the device is pending, ready or degraded and the request is for ready, for retired, or from ready for degraded; then status, version and time change and nothing else does. Asking for the status the device has returns it at version 1 and conflicts at every other version |
| Service.App.TouchDevice | internal/service/devices.go:74-91 | a device that is not retired gets the time seen, no failures, the next version and the time of the call, and nothing else changes; not found, retired and a dead context are told apart |
| Service.App.CreateStream | internal/service/streams.go:21-41 | the exact answer for every input, and on success an active version 1 stream of an existing device |
| Service.App.TransitionStream | internal/service/streams.go:57-76 | another status is granted exactly when the stream is active or paused and the request is a known one; a same-status request succeeds at version 1 only and conflicts otherwise |
| Service.App.CreatePolicy | internal/service/policies.go:22-42 | the exact answer for every input: not found without the device, invalid for a retired device or when a part of the request or of a rule is unsound, exists when the id is taken, otherwise the draft as asked for |
| Service.App.PublishPolicy | internal/service/policies.go:58-78 | a draft is published exactly when every policy of its device in effect at the first reading is older; it applies from its stated start or, when none was stated, from its publishing |
| Service.App.LockPolicy | internal/service/policies.go:80-93 | a published policy is locked; any other answer is not found or invalid, and changes nothing |
| Service.App.IngestTelemetry | internal/service/telemetry.go:25-66 | a batch is taken in exactly when it is not empty and each input names a stored active stream of a ready or degraded device, was observed and is numbered; then one sample for each input is appended and the last 10000 are kept, each stream's evaluation is submitted or refused, each of their devices is seen unless a context check failed, and no other changes. Otherwise the first input not taken in decides the error and nothing changes |
| Service.App.EvaluateTelemetry | internal/service/telemetry.go:68-110 | without a policy in effect or a sample of the last five minutes nothing is reported; otherwise exactly the rules the listed samples ask for are, in their order, each as an anomaly with the rule's severity, the last listed value and the exact window, stored as returned but for its incident; not found when a policy is in effect and the stream is missing |
| Evaluation.EvaluationReportsExactly | internal/service/telemetry.go:68-103 | the same of every evaluation that can happen from a good state, in terms of the stored samples and the policy's rules |
| Evaluation.AnswerIsComplete | internal/service/telemetry.go:88-110 | under the invariant an evaluation returns one anomaly for each detection, in their order and with its severity, not yet naming its incident; these and no others are added to the store |
| Service.App.CorrelateIncident | internal/service/incidents.go:13-37 | merges into an incident of the device and signal that is not closed and was opened at most ten minutes before the scan, appending the anomaly and raising the severity to the greater one; without any such incident it opens one with the anomaly's severity and submits its rollup |
| Service.App.TransitionIncident | internal/service/incidents.go:60-80 | granted exactly when the request is the incident's own status but Closed, Investigating or Resolved of one that is not closed, Contained of an open, investigating or contained one, or Closed of a resolved one with evidence; resolving and closing are dated |
| Service.App.CreateAction | internal/service/actions.go:20-43 | granted exactly when the incident is stored, id, key and kind are given and neither id nor key is taken; then the action is queued at attempt 0 with the larger of one and the attempts asked for, listed by its incident unless that is closed, and its job submitted if there is room |
| Service.App.ExecuteAction | internal/service/actions.go:59-87 | granted exactly when the action has succeeded, and is answered as stored, or is queued or failed with attempts left; then one attempt is made, which fails exactly for the first of a restart, and another is submitted exactly when it failed with attempts left |
| Service.App.CancelAction | internal/service/actions.go:109-125 | exactly a queued action becomes skipped; any other answer is not found or invalid, and changes nothing |
| Service.App.AddEvidence | internal/service/evidence.go:19-44 | the exact answer for every input; the evidence is stored and listed by its incident, which must not be closed |
| Service.App.RollupEvidence | internal/service/evidence.go:53-73 | granted exactly when the incident is stored and the number drawn is free; the snapshot says how many anomalies and actions the incident lists, and is listed by it unless it is closed; an error changes no record |
| Service.App.HandleJob | internal/queue/queue.go:99-122 | a worker's handling of any job in its hand is the call its kind names, and keeps the invariant |
| Service.App.Drain | internal/queue/queue.go:99-122 | with no outside submissions, handling jobs in any order ends, and leaves every action cancelled, refused by the queue, or run to its end |
| Service.Queue.Submit | internal/queue/queue.go:75-89 | FIFO append with job-n identifiers, refused when stopped or full; a full queue still uses up an identifier |
| Happenings.DoesKeeps | internal/service/app.go:33-142 | any call that happens as specified from a good state leads to a good state |
| Happenings.RunExtends | internal/service/app.go:33-142 | what a service method did extends a run by one call, so the run theorems hold of the service object |
| Draining.HandleDescends | internal/service/app.go:104-129 | handling any job lowers (evaluations pending, attempts left over all actions, jobs pending, jobs buffered) lexicographically, whatever the handler submits |
| Draining.ReceiveDescends | internal/queue/queue.go:99-109 | a worker receiving a job lowers the same measure |
| Draining.DrainedOutcome | internal/service/actions.go:59-125 | with no job left each action was cancelled, was refused, or succeeded at attempt 1 (not a restart), succeeded at attempt 2 (restart, two or more attempts allowed) or failed at attempt 1 (restart, one allowed) |
| Draining.RetryOutcome | internal/service/actions.go:59-107 | the same after any run from a fresh service, however many extra ExecuteAction calls are mixed in |
| Draining.RequestOutcome | internal/service/actions.go:20-107 | an action created at any point of a run that ends with a drained queue was cancelled, was refused, or ends as its request asked: not a restart, succeeded at attempt 1; a restart, succeeded at attempt 2 when two or more attempts were asked for and failed at attempt 1 otherwise |
| Lifecycles.DeviceReaches | internal/domain/device.go:59-85 | a reachable device can be brought to a status by some run exactly when it has that status, or it is not retired and the status is ready, degraded or retired |
| Lifecycles.DevicesMoveAsAllowed | internal/domain/device.go:68-85 | at every call of a run a device that becomes degraded was ready, one that becomes ready was pending or degraded, and none becomes pending again |
| Lifecycles.StreamReaches | internal/domain/stream.go:53-67 | a reachable stream can be brought to a status exactly when it has that status, or it is not disabled and the status is a known one |
| Lifecycles.IncidentReaches | internal/domain/incident.go:82-114 | a reachable incident can be brought to a status exactly when it has that status, or it is not closed and the status is a known one but Open |
| Workers.EveryDrainEnds | internal/queue/queue.go:99-122 | however the store operations of workers and of calls already begun interleave, lost updates included, and whatever jobs they submit, every drain without new calls ends |
| Workers.MoveDescends | internal/service/app.go:104-129 | every such operation, from any state interleaved calls may reach, lowers (evaluations pending, moves the other jobs and clients may still make) lexicographically |
| Workers.MovesUntilDrained | internal/queue/queue.go:99-122 | some operation is possible exactly until no job and no client is left |
| Store.Memory.PutAction | internal/store/memory.go:327-342 | a taken key conflicts, or exists for the same action; otherwise action and index entry are stored together |
| Store.Memory.UpdateDevice | internal/store/memory.go:59-71 | a positive expected version must be the stored one; zero or less is not checked |
| Store.Memory.ListPolicies | internal/store/memory.go:169-189 | each policy of the device and status text asked for once, by device ascending and version descending, cut at the limit |
| Store.ListingMeans | internal/store/memory.go:169-189 | a listing holds stored policies of the device and with the status text asked for, in order; one that is missing would not come before any listed, and the limit is reached |
| Store.Memory.ActivePolicy | internal/store/memory.go:191-199 | a policy released and in its time such that no other of the device is of a greater version, or not found exactly when none is |
| Store.Memory.FindOpenIncident | internal/store/queries.go:10-27 | some incident of the device that is not closed, was opened at the given time or later and lists an anomaly of the signal; with none, every incident of the device and signal is closed or older |
| Store.Memory.AddSamples | internal/store/memory.go:201-208 | the samples stored before and the batch, of which the last 10000 are kept |
| Store.Memory.ListSamples | internal/store/memory.go:210-231 | the first `limit` of the selected samples, latest arrival first |
| Store.ListedIs | internal/store/memory.go:210-231 | a listing holds the stored samples of the stream observed from start and before end, each once and latest first; one that is missing came before all that are listed, and the limit is reached |
| Store.RetainsTheLastSamples | internal/store/memory.go:201-208 | after any run of additions the store is exactly the last 10000 samples ever added |
| Sampling.VettingIsPointwise | internal/service/telemetry.go:25-55 | vetting looks at each input alone, and the first bad input's error is the answer |
| Sampling.VettingIs | internal/service/telemetry.go:29-55 | a batch is taken in exactly when each input is, as one sample for each with the device and signal of its stream, and otherwise the first input that is not taken in decides the error |
| Sampling.IngestAnnounces | internal/service/telemetry.go:56-65 | each stream of a batch taken in has its evaluation submitted or refused, each of their devices is seen when every context check passes, and no other device changes |
| Sampling.IngestIsAllOrNothing | internal/service/telemetry.go:25-66 | a batch is stored whole and in order when each input is acceptable by itself, and otherwise nothing at all changes |
| Sampling.StoreHoldsTheLastArrivals | internal/store/memory.go:201-208 | after any run of service calls the store holds exactly the last 10000 samples ever accepted, in order of arrival |
| Sampling.EvaluationWindowIsExact | internal/service/telemetry.go:80-87 | in every reachable state the window built for a stream fails only on an empty list; otherwise its count, extremes, average and last value are exact for samples of that stream, device and signal |
| Telemetry.BuildWindow | internal/domain/telemetry.go:58-96 | the one-pass loop computes the window of the samples in range, with extremes seeded by the first listed sample |
| Telemetry.PipelineWindow | internal/domain/telemetry.go:58-96 | when all samples are in range and of one source the window exists unless the list is empty, its extremes are attained, the average and last value lie between them, and the samples of a quality other than good are counted |
| Telemetry.AttainedUnlessSeedStandsAlone | internal/domain/telemetry.go:66-94 | for any list with a window, the maximum (minimum) is the value of a sample in range exactly when some sample in range is not below (above) the first listed one |
| Telemetry.SeedMayBeOutOfRange | internal/domain/telemetry.go:68-68 | a list whose maximum is the value of a sample that is not in range |
| Telemetry.Detect | internal/aggregate/detector.go:17-46 | the loop returns the detections of the specification, which the next row states in terms of the samples |
| Telemetry.RuleIsReportedExactly | internal/aggregate/detector.go:17-46 | on a pipeline list a rule of its signal is reported exactly when the last listed value is above the smaller bound (above), below the larger (below), not between them (outside), or exceeds some listed value by more than upper for every step of the list (rate) |
| Telemetry.DetectionIsWitnessed | internal/aggregate/detector.go:23-36 | on a pipeline window a rate hit means max - min > upper * (count - 1), an outside hit a value beyond a bound, an above hit max > min(lower, upper), a below hit min < max(lower, upper) |
| Versioned.CommitsAreSerial | internal/service/devices.go:52-91 | under every interleaving of reads and writes, all accepted writes are their operations applied one after the other to the stored records, if and only if no request for the status of a version 1 copy overwrites a changed record |
| Versioned.WriteIsSerialUnlessOverwriting | internal/store/memory.go:59-71 | one write is its operation applied to the stored record, or changes nothing, exactly unless it is such a request |
| Versioned.RunsAreSerialisable | internal/store/memory.go:59-71 | without such a request the interleaved run leaves exactly what the accepted operations leave when made one at a time, in commit order |
| Versioned.RecordsOnlyAdvance | internal/domain/device.go:59-85 | without such a request versions only rise, a record changes only with its version, and a retired device or disabled stream never changes again |
| Versioned.ChangeRaisesVersion | internal/domain/stream.go:53-67 | a change of a device or stream raises the version by exactly 1 unless it asks for the status already held, and a retired or disabled record accepts no other change |
| Versioned.RetiredMayReturn | internal/service/devices.go:60-66 | a run in which a same-status request at version 1 brings a retired device back at its first version |
| Alone.VersionedAlone | internal/service/devices.go:52-91 | a device or stream client that is not interrupted does what its call does |
| Alone.ChangesAlone | internal/service/incidents.go:60-80 | an uninterrupted incident transition or cancellation does what its call does |
| Alone.ExecuteAlone | internal/service/actions.go:59-87 | an uninterrupted execution does what its call does |
| Alone.RetryAlone | internal/service/actions.go:79-83 | its last step submits another attempt exactly when the call does |
| Alone.RespondAlone | internal/service/actions.go:20-43 | an uninterrupted creation of an action does what its call does |
| Alone.GatherAlone | internal/service/evidence.go:19-44 | uninterrupted evidence does what its call does |
| Alone.RollupAlone | internal/service/evidence.go:53-73 | an uninterrupted rollup does what its job does |
| Alone.DetectAlone | internal/service/telemetry.go:96-107 | an uninterrupted detection, from storing the anomaly to linking it, does what a turn of the loop does |
| Alone.PoliciesAlone | internal/service/policies.go:58-93 | an uninterrupted publish or lock does what its call does |
| Records.EveryCopyCarriesItsFacts | internal/store/memory.go:280-389 | under every interleaving of store operations, lost updates included, each incident stored or held carries its facts, each action stored or held is within its attempt budget, and the idempotency index is exactly the inverse of the stored keys |
| Records.StepIsSound | internal/store/memory.go:233-389 | no single store operation of any client breaks a fact of any stored or held record, with arbitrary, possibly shared, identifiers |
| Records.OfferedIsGood | internal/domain/incident.go:64-138 | whatever a client writes back of its copy carries the facts at the clock reading it was made with |
| Overtaking.IncidentsOnlyGain | internal/store/memory.go:300-308 | over an interleaved run in which no incident is written from an overtaken copy, incidents only gain and closed ones do not change |
| Overtaking.ClosedChangesExactlyWhenReplaced | internal/store/memory.go:300-308 | a step changes a closed incident exactly when it writes a different record from an overtaken copy |
| Overtaking.AlwaysWholeExactlyUnlessDropped | internal/service/incidents.go:13-37 | under every interleaving the links between anomalies and incidents are whole at every moment of the run, up to those a client is about to complete, if and only if no step writes an incident from a list that misses an anomaly the stored incident lists |
| Overtaking.WholeExactlyUnlessDropped | internal/store/memory.go:300-308 | one step of any client keeps the links whole exactly unless it is such a write |
| Overtaking.RestIsPartitioned | internal/service/incidents.go:13-37 | when no write of an interleaved run misses a listed anomaly, coming to rest leaves a partition exactly when no anomaly's correlation was cut short |
| Overtaking.LostUpdateBreaksThePartition | internal/store/memory.go:300-308 | a run of two merges from one copy: everyone finishes, yet an anomaly names an incident that does not list it |
| Executions.FinishedChangesExactlyWhenReplaced | internal/store/memory.go:354-362 | a step changes a succeeded or cancelled action exactly when it writes a different record from an overtaken copy |
| Executions.ActionsGoForward | internal/service/actions.go:59-125 | over an interleaved run in which no action is written from an overtaken copy, attempts never fall and succeeded and cancelled actions do not change |
| Executions.CancelledMayRun | internal/service/actions.go:59-125 | a run in which an action that is cancelled after it was read is executed and ends as succeeded |
| Overtaking.ClosedMayReopen | internal/service/incidents.go:60-80 | a run in which a transition from an old copy takes up a closed incident again |
| Nearness.AlwaysSeparatedExactlyUnlessMet | internal/service/incidents.go:13-36 | under every interleaving open incidents of one device and signal are more than ten minutes apart at every moment of the run, if and only if no step opens an incident, or takes a closed one up again, within ten minutes of an open one of its device and signal |
| Nearness.SpacedExactlyUnlessMet | internal/store/queries.go:10-27 | one step of any client keeps that distance exactly unless it is such an opening or revival |
| Nearness.OrderlyRunsNeverMeet | internal/service/incidents.go:17-36 | such a step occurs only in a run in which an incident is opened between another client's scan and its own opening for the same device and signal, or in which a closed incident is taken up again |
| Nearness.RevivalBreaksTheSeparation | internal/service/incidents.go:60-80 | a run in which a transition from an old copy takes up a closed incident after another was opened in its place |
| Spacing.CrossingBreaksTheSeparation | internal/service/incidents.go:17-36 | a run of two clients that are both told there is no incident and open one each |
| Releases.PoliciesGoForward | internal/store/memory.go:155-167 | under every interleaving of create, publish and lock steps a released policy stays released, and one in effect stays in effect |
| Releases.VersionInForceNeverDecreases | internal/service/policies.go:58-93 | under every such interleaving the version in force for a device never decreases |
| Releases.PublishedInRun | internal/service/policies.go:58-78 | at every publish of every such run, a policy that applies at the clock reading becomes the only possible answer at that reading, if and only if no other policy of the device, at least as new, was released or took effect since the client's scan |
| Releases.CrossingPublishesAreNotOnly | internal/service/policies.go:58-78 | a run of two clients that publish drafts of one version for one device, neither of which the other's scan saw |
| Releases.StepIsSound | internal/domain/policy.go:112-131 | each step keeps what every stored and held copy carries: the start stated at creation or, when none was, one that has passed once released |
| Limiter.Limiter.Allow | internal/ratelimit/limiter.go:30-44 | a call is admitted exactly when the key's current bucket has room, and only that key's bucket changes; the object's buckets and answers are those of the whole sequence of its calls |
| Limiter.Limiter.Remaining | internal/ratelimit/limiter.go:46-58 | reads how many calls are left |
| Limiter.LeftIsWhatIsAdmitted | internal/ratelimit/limiter.go:46-58 | Remaining says exactly how many further calls at that time Allow admits |
| Limiter.SlidingBound | internal/ratelimit/limiter.go:30-44 | any half-open interval of one window's length contains at most 2*limit - 1 admitted calls of a key |
| Limiter.SlidingBoundIsTight | internal/ratelimit/limiter.go:30-44 | that bound is reached for every limit and every window longer than one tick |
| Limiter.ObjectKeepsSlidingBound | internal/ratelimit/limiter.go:30-44 | the same for whatever calls a limiter object has had at times that do not go back |
| Limiter.LimitHoldsOnlyForOne | internal/ratelimit/limiter.go:30-44 | no interval of one window's length ever contains more than `limit` admitted calls, if and only if the limit is one call or the window one tick |
| Limiter.OtherKeysHaveNoEffect | internal/ratelimit/limiter.go:30-44 | a key's bucket and admitted calls are those of the run with all other keys' calls removed |
| Decimal.PrintUint64 | internal/queue/queue.go:124-136 | at most 20 bytes, which read back to the same number |
| Decimal.PrintInt64 | internal/service/telemetry.go:124-141 | the decimal text the loop builds, sign included |
| Decimal.PrintedReadsBack | internal/service/telemetry.go:124-141 | a printed 64-bit integer reads back to itself exactly unless it is the least one, whose text is a lone sign |
| Decimal.NumberedIdsDiffer | internal/service/telemetry.go:119-122 | identifiers of one prefix are equal only for equal counters |
| Decimal.ParseLimit | internal/service/validation.go:16-34 | the saturating parser's answer for every text, with its accumulator never above 10009 |
| Decimal.LimitOfPrinted | internal/service/validation.go:16-34 | parsing a printed n >= 1 gives min(n, 1000) |
| Metrics.MakeKey | internal/metrics/registry.go:76-104 | the key is that of the ascending names, in whatever order the map is walked |
| Metrics.Arrange | internal/metrics/registry.go:84-90 | the exchange loops leave the same names in ascending order |
| Metrics.AscendingIsUnique | internal/metrics/registry.go:84-90 | a set of names has only one ascending arrangement, so equal label maps give equal keys |
| Metrics.CleanKeysDiffer | internal/metrics/registry.go:76-104 | when metric names contain no '{', label names no '=' or ',' and label values no ',', two keys are equal exactly when the names and the label maps are |
| Metrics.KeysMayCollide | internal/metrics/registry.go:91-103 | two label maps, one with separators in a value, that share a key |
| Metrics.Registry.Add | internal/metrics/registry.go:32-36 | keeps every counter equal to the sum modulo 2^64 of all values ever added under its key |
| Metrics.Registry.Inc | internal/metrics/registry.go:26-30 | the same for an addition of 1 |
| Metrics.TotalsIgnoreOrder | internal/metrics/registry.go:26-36 | a counter does not depend on the order in which calls reach it |
| Audit.Log.Record | internal/audit/log.go:42-56 | the log is exactly the last `limit` entries ever recorded |
| Audit.Log.List | internal/audit/log.go:58-84 | the matching retained entries, latest first, cut at the limit; up to 2^64 records this is the only such view |
| Audit.ViewMeans | internal/audit/log.go:58-84 | a view shows retained entries that have the actor, action and resource asked for, latest first; one that is left out would come after all that are shown, and the limit is reached |
| Audit.NumberedAreDistinct | internal/audit/log.go:45-51 | the first 2^64 entries of a log have distinct identifiers, whatever the clock says |
| Audit.OneView | internal/audit/log.go:71-80 | entries with distinct identifiers have a single view for each filter |

## Left out

- HTTP routing, JSON, headers, configuration, signals and server lifecycle (`internal/httpapi`, `cmd/orbitd`).
- The event bus, logging, and the audit and metric calls made by service methods: they do not feed back into the state. The audit log and the registry are modelled by themselves.
- The scheduler, the correlation and window helpers, the maintenance, report and statistics files: not used by the running service, or only counting.
- Records change through a pointer to a private copy in the source; here such a method is a function that returns the changed copy, because the store copies every record in and out. Aliasing inside one record (label slices, tag maps) is not captured.
- Labels, tags, NormalizeLabels, response plans, rule duration, policy retirement, threshold and message text.
- The plain List and Get calls, EvaluateIncident, SearchIncidents, EvidenceSummary, StreamReady, LatestSamplesByStream and the demo seed: filters, or a composition of modelled calls.
- Stopping a queue: jobs still buffered are dropped and the workers' context ends. A drain is of a queue that keeps running or was stopped for submissions only. An absent queue behaves as one that refuses everything.
- Gauges, snapshots and the Prometheus text: plain copies.
- Wrap-around of generated identifiers after 2^63 calls, and of record versions.
