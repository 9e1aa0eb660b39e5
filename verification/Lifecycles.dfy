/** Which statuses records can come to have, over whole runs: exactly these, and how one call moves them. */
module Lifecycles {
  import opened Basics
  import opened Decimal
  import opened Domain
  import opened Store
  import opened Calls
  import opened IncidentFacts
  import opened Linkage
  import opened Invariant
  import opened Preservation
  import opened Evaluation
  import opened Runs
  import opened Guarantees
  import opened Answers

  // ----- Reaching a later state -----

  ghost predicate Leads(s: State, s': State) {
    exists calls :: CanRun(s, calls) && Run(s, calls) == s'
  }

  lemma Stays(s: State)
    ensures Leads(s, s)
  {
    assert CanRun(s, []) && Run(s, []) == s;
  }

  lemma {:induction false} RunsJoin(s: State, a: seq<Call>, b: seq<Call>)
    requires CanRun(s, a) && CanRun(Run(s, a), b)
    ensures CanRun(s, a + b) && Run(s, a + b) == Run(Run(s, a), b)
  {
    hide Fits, Apply;
    if b == [] {
      assert a + b == a;
    } else {
      RunsJoin(s, a, b[..|b| - 1]);
      assert (a + b)[..|a + b| - 1] == a + b[..|b| - 1];
    }
  }

  lemma LeadsOn(s: State, s1: State, s2: State)
    requires Leads(s, s1) && Leads(s1, s2)
    ensures Leads(s, s2)
  {
    var a :| CanRun(s, a) && Run(s, a) == s1;
    var b :| CanRun(s1, b) && Run(s1, b) == s2;
    RunsJoin(s, a, b);
  }

  // One call made at once.
  lemma OneCall(s: State, act: Act)
    requires Inv(s) && Fits(s, act, s.now)
    ensures var s' := Effect(s, act).(now := s.now); Leads(s, s') && Inv(s') && Evolves(s, s')
  {
    var calls := [Call(act, s.now)];
    assert calls[..0] == [];
    assert CanRun(s, calls) && Run(s, calls) == Effect(s, act).(now := s.now) by { hide Inv, Fits, Effect; }
    hide Inv, Fits, Effect, CanRun, Run, Evolves;
    RunKeeps(s, calls);
  }

  lemma LaterIsOk(s: State, s': State)
    requires Inv(s) && Leads(s, s')
    ensures Inv(s') && Evolves(s, s')
  {
    hide Inv, Evolves;
    var calls :| CanRun(s, calls) && Run(s, calls) == s';
    RunKeeps(s, calls);
  }

  // ----- What a move makes of the records -----

  lemma MovesAre(s: State, act: Act)
    ensures act.TransitionDevice? ==> Effect(s, act) == s.(db := AfterTransitionDevice(s.db, act.id, act.deviceStatus, act.at))
    ensures act.TransitionStream? ==> Effect(s, act) == s.(db := AfterTransitionStream(s.db, act.id, act.streamStatus, act.at))
    ensures act.TransitionIncident? ==> Effect(s, act) == s.(db := AfterTransitionIncident(s.db, act.id, act.incidentStatus, act.at))
    ensures act.AddEvidence? ==> Effect(s, act) == s.(db := AfterAddEvidence(s.db, act.id, act.evidence, act.at, act.attached))
  {
    hide AfterTransitionDevice, AfterTransitionStream, AfterTransitionIncident, AfterAddEvidence, AfterIngest, AfterEvaluate, AfterExecute,
         AfterCreateAction, AfterRollup, AfterCancel, AfterTouch, AfterCreateDevice, AfterCreateStream, AfterCreatePolicy, AfterPublish, AfterLock;
  }

  lemma DeviceIsMoved(db: Db, id: string, to: DeviceStatus, at: int)
    requires id in db.devices && DeviceMayGo(db.devices[id].status, to) && db.devices[id].id == id && db.devices[id].version >= 1
    ensures var db' := AfterTransitionDevice(db, id, to, at); id in db'.devices && db'.devices[id].status == to
  {
    var d := db.devices[id];
    if to != d.status {
      var d' := d.(status := to, version := d.version + 1, updatedAt := at);
      assert d.Transition(to, at) == Ok(d');
      hide Device.Transition, DeviceMayGo;
      assert db.UpdateDevice(d', d.version) == Ok(db.(devices := db.devices[id := d']));
    }
  }

  lemma StreamIsMoved(db: Db, id: string, to: StreamStatus, at: int)
    requires id in db.streams && StreamMayGo(db.streams[id].status, to) && db.streams[id].id == id && db.streams[id].version >= 1
    requires to != db.streams[id].status
    ensures var db' := AfterTransitionStream(db, id, to, at); id in db'.streams && db'.streams[id].status == to
  {
    var x := db.streams[id];
    var x' := x.(status := to, version := x.version + 1, updatedAt := at);
    assert x.Transition(to, at) == Ok(x') by { hide AfterTransitionStream; }
    hide Stream.Transition, StreamMayGo;
    assert db.UpdateStream(x', x.version) == Ok(db.(streams := db.streams[id := x'])) by { hide AfterTransitionStream; }
    hide Db.UpdateStream;
  }

  lemma IncidentIsMoved(db: Db, id: string, to: IncidentStatus, at: int)
    requires id in db.incidents && db.incidents[id].id == id && !db.incidents[id].status.OtherIncidentStatus? && IncidentMayGo(db.incidents[id], to)
    ensures var db' := AfterTransitionIncident(db, id, to, at);
            id in db'.incidents && db'.incidents[id].status == to && db'.incidents[id].evidenceIds == db.incidents[id].evidenceIds
  {
    var i := db.incidents[id];
    var i' := IncidentGone(i, to, at);
    assert i.Transition(to, at) == Ok(i') && (to == Closed ==> i.ReadyToClose());
    assert i'.id == id && i'.status == to && i'.evidenceIds == i.evidenceIds;
    hide Incident.Transition, IncidentMayGo, IncidentGone, Incident.ReadyToClose;
    assert db.UpdateIncident(i') == Ok(db.(incidents := db.incidents[id := i']));
  }

  lemma NoteIsAttached(db: Db, id: string, input: EvidenceInput, at: int)
    requires id in db.incidents && db.incidents[id].id == id && db.incidents[id].status != Closed
    requires input.id !in db.evidence && !input.kind.OtherEvidenceKind? && !Blank(id) && !Blank(input.id) && !Blank(input.title) && !Blank(input.body)
    ensures var db' := AfterAddEvidence(db, id, input, at, at);
            id in db'.incidents && db'.incidents[id].status == db.incidents[id].status && db'.incidents[id].evidenceIds != []
  {
    hide Blank, TrimSpace;
  }

  // ----- Devices -----

  ghost predicate DeviceIs(s: State, id: string, status: DeviceStatus) {
    id in s.db.devices && s.db.devices[id].status == status
  }

  lemma DeviceMoves(s: State, id: string, to: DeviceStatus) returns (s': State)
    requires Inv(s) && id in s.db.devices && DeviceMayGo(s.db.devices[id].status, to)
    ensures Leads(s, s') && Inv(s') && DeviceIs(s', id, to)
  {
    var act := Act.TransitionDevice(id, to, s.now);
    s' := Effect(s, act).(now := s.now);
    assert Fits(s, act, s.now) by { hide Inv; }
    DeviceIsKnown(s, id);
    hide Inv, Fits, Effect, Leads, AfterTransitionDevice, DeviceMayGo;
    MovesAre(s, act);
    DeviceIsMoved(s.db, id, to, s.now);
    OneCall(s, act);
  }

  lemma DeviceIsKnown(s: State, id: string)
    requires Inv(s) && id in s.db.devices
    ensures s.db.devices[id].id == id && s.db.devices[id].version >= 1
    ensures !s.db.devices[id].status.OtherDeviceStatus?
  {
    hide CoreOk, JobsOk, Retries, StreamsOk, PoliciesOk, SamplesOk, ActionsOk, EvidenceOk;
  }

  /** A device can be brought to a status exactly when it has that status, or is not retired and the status is not Pending. */
  lemma DeviceReaches(s: State, id: string, to: DeviceStatus)
    requires Reachable(s) && id in s.db.devices
    ensures (exists s' :: Leads(s, s') && DeviceIs(s', id, to))
       <==> to == s.db.devices[id].status || (s.db.devices[id].status != Retired && (to.Ready? || to.Degraded? || to.Retired?))
  {
    ReachableIsOk(s);
    DeviceIsKnown(s, id);
    Stays(s);
    hide Inv, Reachable, Leads;
    var from := s.db.devices[id].status;
    if s' :| Leads(s, s') && DeviceIs(s', id, to) {
      LaterIsOk(s, s');
      DeviceIsKnown(s', id);
      assert DeviceEvolves(s.db.devices[id], s'.db.devices[id]);
    }
    if to == from {
      assert DeviceIs(s, id, to);
    } else if DeviceMayGo(from, to) {
      var s1 := DeviceMoves(s, id, to);
    } else if from == Pending && to == Degraded {
      var s1 := DeviceMoves(s, id, Ready);
      var s2 := DeviceMoves(s1, id, Degraded);
      LeadsOn(s, s1, s2);
    }
  }

  // One call: every stored device keeps its status, or goes where it may.
  ghost predicate DevicesStep(before: map<string, Device>, after: map<string, Device>) {
    forall id | id in before :: id in after && (after[id].status == before[id].status || DeviceMayGo(before[id].status, after[id].status))
  }

  ghost predicate SameStatuses(before: map<string, Device>, after: map<string, Device>) {
    forall id | id in before :: id in after && after[id].status == before[id].status
  }

  lemma {:induction false} TouchesKeepStatus(s: State, touches: seq<Touch>, at: int)
    requires DevicesOk(s.db.devices)
    ensures DevicesOk(AfterTouches(s, touches, at).db.devices) && SameStatuses(s.db.devices, AfterTouches(s, touches, at).db.devices)
  {
    if touches != [] {
      hide AfterOneTouch;
      TouchesKeepStatus(s, touches[..|touches| - 1], at);
      OneTouchKeepsStatus(AfterTouches(s, touches[..|touches| - 1], at), touches[|touches| - 1], at);
    }
  }

  lemma OneTouchKeepsStatus(s: State, t: Touch, at: int)
    requires DevicesOk(s.db.devices)
    ensures DevicesOk(AfterOneTouch(s, t, at).db.devices) && SameStatuses(s.db.devices, AfterOneTouch(s, t, at).db.devices)
  {
  }

  lemma EvaluateKeepsDevices(s: State, act: Act, end: int)
    requires Base(s) && act.EvaluateTelemetry? && Fits(s, act, end)
    ensures AfterEvaluate(s, act).db.devices == s.db.devices
  {
    hide Base, Evolves, AfterPicks, PicksFit, FindingsOf, KeepsWork, IncidentsEvolve, AnomaliesFixed, SameEvaluations, Db.MayBeActive;
    match FindingsOf(s.db, act.streamId, act.deviceId, act.found, act.windowEnd)
    case Nothing =>
    case Findings(src, ds) =>
      if |ds| == |act.picks| {
        Later(s, act.windowEnd, s.sequence);
        PicksKeep(s.(now := act.windowEnd), src, ds, act.picks);
      }
  }

  lemma DeviceCallsMove(db: Db, act: Act)
    requires DevicesOk(db.devices)
    ensures act.TransitionDevice? ==> DevicesStep(db.devices, AfterTransitionDevice(db, act.id, act.deviceStatus, act.at).devices)
    ensures act.TouchDevice? ==> DevicesStep(db.devices, AfterTouch(db, act.id, act.seen, act.at).devices)
    ensures act.CreateDevice? ==> DevicesStep(db.devices, AfterCreateDevice(db, act.id, act.name, act.site, act.model, act.at).devices)
  {
    hide Blank, TrimSpace;
  }

  lemma RecordCallsLeaveDevices(db: Db, act: Act)
    ensures act.CreateStream? ==> AfterCreateStream(db, act).devices == db.devices
    ensures act.TransitionStream? ==> AfterTransitionStream(db, act.id, act.streamStatus, act.at).devices == db.devices
    ensures act.CreatePolicy? ==> AfterCreatePolicy(db, act.actor, act.policy, act.at).devices == db.devices
    ensures act.PublishPolicy? ==> AfterPublish(db, act.id, act.found, act.at).devices == db.devices
    ensures act.LockPolicy? ==> AfterLock(db, act.id, act.at).devices == db.devices
  {
    hide NewStream, NewPolicy, Stream.Transition, Policy.Publish, Policy.Lock, Superseded;
  }

  lemma RecordCallMovesDevices(s: State, act: Act)
    requires DevicesOk(s.db.devices) && RecordsOnly(act)
    ensures DevicesStep(s.db.devices, Effect(s, act).db.devices)
  {
    DeviceCallsMove(s.db, act);
    RecordCallsLeaveDevices(s.db, act);
    hide DevicesOk, AfterTransitionDevice, AfterTransitionStream, AfterTouch, AfterCreateDevice, AfterCreateStream, AfterCreatePolicy, AfterPublish, AfterLock, DeviceMayGo;
  }

  lemma OtherCallKeepsDevices(s: State, act: Act)
    requires !RecordsOnly(act) && !act.IngestTelemetry? && !act.EvaluateTelemetry? && !act.Handle?
    ensures Effect(s, act).db.devices == s.db.devices
  {
    hide AfterTransitionIncident, AfterAddEvidence, AfterExecute, AfterRollup, AfterCreateAction, Action.Cancel;
    match act
    case TransitionIncident(id, to, at) => TransitionIncidentFrame(s.db, id, to, at);
    case AddEvidence(id, evidence, at, attached) => AddEvidenceFrame(s.db, id, evidence, at, attached);
    case ExecuteAction(id, at, finished) => ExecuteFrame(s, id, at, finished);
    case RollupEvidence(id, at, attached) => RollupFrame(s, id, at, attached);
    case CreateAction(action, at, attached) => CreateActionFrame(s, action, at, attached);
    case CancelAction(id, at) =>
    case Receive =>
  }

  lemma {:induction false} CallMovesDevices(s: State, act: Act, end: int)
    requires Base(s) && Fits(s, act, end)
    ensures DevicesStep(s.db.devices, Effect(s, act).db.devices)
    decreases act
  {
    BaseHasDevices(s);
    if act.Handle? {
      hide Base, Evolves;
      TakenFromHand(s, act.slot);
      CallMovesDevices(s.(inHand := Without(s.inHand, act.slot)), act.handler, end);
    } else if act.EvaluateTelemetry? {
      hide Base, Fits;
      EvaluateKeepsDevices(s, act, end);
    } else if RecordsOnly(act) {
      hide Base, Fits, Effect;
      RecordCallMovesDevices(s, act);
    } else if act.IngestTelemetry? {
      hide Base, Fits, AfterTouches;
      if act.samples != [] && Vet(s.db, act.samples, act.at).Ok? {
        TouchesKeepStatus(s.(db := s.db.AddSamples(Vet(s.db, act.samples, act.at).value)), act.touches, act.at);
      }
    } else {
      hide Base, Fits, Effect;
      OtherCallKeepsDevices(s, act);
    }
  }

  lemma BaseHasDevices(s: State)
    requires Base(s)
    ensures DevicesOk(s.db.devices)
  {
    hide CoreOk, JobsOk, DevicesOk;
  }

  lemma LastCall(s: State, calls: seq<Call>, n: nat)
    requires CanRun(s, calls) && n < |calls|
    ensures CanRun(s, calls[..n]) && Fits(Run(s, calls[..n]), calls[n].act, calls[n].end)
    ensures Run(s, calls[..n + 1]) == Effect(Run(s, calls[..n]), calls[n].act).(now := calls[n].end)
  {
    hide Fits, Effect;
    RunInTwo(s, calls, n + 1);
    assert calls[..n + 1][..n] == calls[..n];
  }

  /** At every call of a run a device that becomes degraded was ready, and one that becomes ready was pending or degraded. */
  lemma DevicesMoveAsAllowed(s: State, calls: seq<Call>, n: nat, id: string)
    requires Reachable(s) && CanRun(s, calls) && n < |calls| && id in Run(s, calls[..n]).db.devices
    ensures id in Run(s, calls[..n + 1]).db.devices
    ensures var from, to := Run(s, calls[..n]).db.devices[id].status, Run(s, calls[..n + 1]).db.devices[id].status;
            && (to == Degraded ==> from == Degraded || from == Ready)
            && (to == Ready ==> from == Ready || from == Pending || from == Degraded)
            && (to == Pending ==> from == Pending)
  {
    ReachableIsOk(s);
    LastCall(s, calls, n);
    hide Inv, Reachable, Fits, Effect, CanRun, Run;
    RunKeeps(s, calls[..n]);
    InvHasBase(Run(s, calls[..n]));
    CallMovesDevices(Run(s, calls[..n]), calls[n].act, calls[n].end);
  }

  // ----- Streams -----

  ghost predicate StreamIs(s: State, id: string, status: StreamStatus) {
    id in s.db.streams && s.db.streams[id].status == status
  }

  lemma StreamIsKnown(s: State, id: string)
    requires Inv(s) && id in s.db.streams
    ensures s.db.streams[id].id == id && s.db.streams[id].version >= 1 && !s.db.streams[id].status.OtherStreamStatus?
  {
    hide CoreOk, JobsOk, Retries, DevicesOk, PoliciesOk, SamplesOk, ActionsOk, EvidenceOk, Blank;
  }

  lemma StreamCameFrom(s: State, s': State, id: string)
    requires Inv(s) && Leads(s, s') && id in s.db.streams
    ensures id in s'.db.streams && !s'.db.streams[id].status.OtherStreamStatus?
    ensures s.db.streams[id].status == Disabled ==> s'.db.streams[id].status == Disabled
  {
    LaterIsOk(s, s');
    assert StreamEvolves(s.db.streams[id], s'.db.streams[id]) by { hide Inv; }
    hide Inv, Evolves, Leads;
    StreamIsKnown(s', id);
  }

  /** A stream can be brought to a status exactly when it has that status, or is not disabled and the status is a known one. */
  lemma StreamReaches(s: State, id: string, to: StreamStatus)
    requires Reachable(s) && id in s.db.streams
    ensures (exists s' :: Leads(s, s') && StreamIs(s', id, to))
       <==> to == s.db.streams[id].status || (s.db.streams[id].status != Disabled && !to.OtherStreamStatus?)
  {
    ReachableIsOk(s);
    StreamIsKnown(s, id);
    Stays(s);
    var from, act := s.db.streams[id].status, Act.TransitionStream(id, to, s.now);
    assert Fits(s, act, s.now) by { hide Inv, Reachable; }
    if StreamMayGo(from, to) && to != from {
      StreamIsMoved(s.db, id, to, s.now);
    }
    hide Inv, Reachable, Leads, Fits, Effect, AfterTransitionStream;
    MovesAre(s, act);
    if s' :| Leads(s, s') && StreamIs(s', id, to) {
      StreamCameFrom(s, s', id);
    }
    if to == from {
      assert StreamIs(s, id, to);
    } else if StreamMayGo(from, to) {
      OneCall(s, act);
      assert StreamIs(Effect(s, act).(now := s.now), id, to);
    }
  }

  // ----- Incidents -----

  ghost predicate IncidentIs(s: State, id: string, status: IncidentStatus) {
    id in s.db.incidents && s.db.incidents[id].status == status
  }

  lemma IncidentIsKnown(s: State, id: string)
    requires Inv(s) && id in s.db.incidents
    ensures s.db.incidents[id].id == id && !s.db.incidents[id].status.OtherIncidentStatus?
  {
    hide DbOk, JobsOk, Retries, ListsFindings, PeakSeverity, ListsOwn, Justified, PointBack;
  }

  // A call on an incident that changes the store as described leads to the state it describes.
  lemma MoveLeads(s: State, act: Act) returns (s': State)
    requires Inv(s) && (act.TransitionIncident? || act.AddEvidence?) && act.at == s.now && (act.AddEvidence? ==> act.attached == s.now)
    ensures Leads(s, s') && Inv(s') && s'.now == s.now
    ensures act.TransitionIncident? ==> s'.db == AfterTransitionIncident(s.db, act.id, act.incidentStatus, act.at)
    ensures act.AddEvidence? ==> s'.db == AfterAddEvidence(s.db, act.id, act.evidence, act.at, act.attached)
  {
    assert Fits(s, act, s.now) by { hide Inv; }
    hide Inv, Fits, Effect, Leads, AfterTransitionIncident, AfterAddEvidence;
    MovesAre(s, act);
    OneCall(s, act);
    s' := Effect(s, act).(now := s.now);
  }

  lemma IncidentMoves(s: State, id: string, to: IncidentStatus) returns (s': State)
    requires Inv(s) && id in s.db.incidents && IncidentMayGo(s.db.incidents[id], to)
    ensures Leads(s, s') && Inv(s') && IncidentIs(s', id, to) && s'.db.incidents[id].evidenceIds == s.db.incidents[id].evidenceIds
  {
    IncidentIsKnown(s, id);
    hide Inv, Leads, AfterTransitionIncident, IncidentMayGo;
    IncidentIsMoved(s.db, id, to, s.now);
    s' := MoveLeads(s, Act.TransitionIncident(id, to, s.now));
  }

  ghost predicate NotedBelow(below: set<string>, n: nat) {
    (forall k: nat | k < n :: NumberedId("note", k) in below) && forall x | x in below :: exists k: nat | k < n :: x == NumberedId("note", k)
  }

  lemma OneMoreNote(below: set<string>, n: nat)
    requires NotedBelow(below, n)
    ensures NumberedId("note", n) !in below && NotedBelow(below + {NumberedId("note", n)}, n + 1)
  {
    forall k: nat | k < n ensures NumberedId("note", k) != NumberedId("note", n) {
      NumberedIdsDiffer("note", k, n);
    }
    hide NumberedId;
  }

  lemma FreshNote(used: set<string>) returns (n: nat)
    ensures NumberedId("note", n) !in used
  {
    n := 0;
    var below: set<string> := {};
    assert NotedBelow(below, n);
    hide NumberedId, NotedBelow;
    while NumberedId("note", n) in used
      invariant below <= used && NotedBelow(below, n)
      decreases |used - below|
    {
      OneMoreNote(below, n);
      below, n := below + {NumberedId("note", n)}, n + 1;
    }
  }

  // A note can always be added to an incident that is not closed.
  lemma IncidentIsNoted(s: State, id: string) returns (s': State)
    requires Inv(s) && id in s.db.incidents && s.db.incidents[id].status != Closed
    ensures Leads(s, s') && Inv(s') && IncidentIs(s', id, s.db.incidents[id].status) && s'.db.incidents[id].evidenceIds != []
  {
    IncidentIsKnown(s, id);
    IncidentIsNamed(s, id);
    hide Inv, Leads, NumberedId, Blank, AfterAddEvidence;
    var n := FreshNote(s.db.evidence.Keys);
    var input := EvidenceInput(NumberedId("note", n), OperatorNote, "n", "n", "");
    NoteCanBeMade(n);
    NoteIsAttached(s.db, id, input, s.now);
    s' := MoveLeads(s, Act.AddEvidence(id, input, s.now, s.now));
  }

  lemma NoteCanBeMade(n: nat)
    ensures !Blank(NumberedId("note", n)) && !Blank("n")
  {
    assert NumberedId("note", n)[0] == 'n';
    NotBlank(NumberedId("note", n), 0);
    NotBlank("n", 0);
  }

  lemma IncidentCloses(s: State, id: string) returns (s': State)
    requires Inv(s) && id in s.db.incidents && s.db.incidents[id].status != Closed
    ensures Leads(s, s') && IncidentIs(s', id, Closed)
  {
    hide Inv, Leads;
    var s1 := IncidentIsNoted(s, id);
    var s2 := IncidentMoves(s1, id, Resolved);
    s' := IncidentMoves(s2, id, Closed);
    LeadsOn(s, s1, s2);
    LeadsOn(s, s2, s');
  }

  lemma IncidentIsContained(s: State, id: string) returns (s': State)
    requires Inv(s) && id in s.db.incidents && s.db.incidents[id].status != Closed
    ensures Leads(s, s') && IncidentIs(s', id, Contained)
  {
    hide Inv, Leads;
    var s1 := IncidentMoves(s, id, Investigating);
    s' := IncidentMoves(s1, id, Contained);
    LeadsOn(s, s1, s');
  }

  lemma IncidentGoesTo(s: State, id: string, to: IncidentStatus) returns (s': State)
    requires Inv(s) && id in s.db.incidents && s.db.incidents[id].status != Closed && !to.Open? && !to.OtherIncidentStatus?
    ensures Leads(s, s') && IncidentIs(s', id, to)
  {
    hide Inv, Leads, IncidentIs;
    match to
    case Contained => s' := IncidentIsContained(s, id);
    case Closed => s' := IncidentCloses(s, id);
    case _ => s' := IncidentMoves(s, id, to);
  }

  lemma IncidentCameFrom(s: State, s': State, id: string)
    requires Inv(s) && Leads(s, s') && id in s.db.incidents
    ensures id in s'.db.incidents && !s'.db.incidents[id].status.OtherIncidentStatus?
    ensures s.db.incidents[id].status == Closed || s'.db.incidents[id].status == Open ==> s'.db.incidents[id].status == s.db.incidents[id].status
  {
    LaterIsOk(s, s');
    assert IncidentEvolves(s.db.incidents[id], s'.db.incidents[id]) by { hide Inv; }
    hide Inv, Evolves, Leads;
    IncidentIsKnown(s', id);
  }

  /** An incident can be brought to a status exactly when it has that status, or is not closed and the status is a known one but Open. */
  lemma IncidentReaches(s: State, id: string, to: IncidentStatus)
    requires Reachable(s) && id in s.db.incidents
    ensures (exists s' :: Leads(s, s') && IncidentIs(s', id, to))
       <==> to == s.db.incidents[id].status || (s.db.incidents[id].status != Closed && !to.Open? && !to.OtherIncidentStatus?)
  {
    ReachableIsOk(s);
    Stays(s);
    hide Inv, Reachable, Leads;
    var from := s.db.incidents[id].status;
    if s' :| Leads(s, s') && IncidentIs(s', id, to) {
      IncidentCameFrom(s, s', id);
    }
    if to == from {
      assert IncidentIs(s, id, to);
    } else if from != Closed && !to.Open? && !to.OtherIncidentStatus? {
      var s1 := IncidentGoesTo(s, id, to);
    }
  }
}
