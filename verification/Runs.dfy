/** Statements about every run of the service, at the granularity of whole calls. */
module Runs {
  import opened Basics
  import opened Decimal
  import opened Domain
  import opened Store
  import opened Calls
  import opened Linkage
  import opened Invariant
  import opened Preservation
  import opened Evaluation

  // ----- One call -----

  predicate RecordsOnly(act: Act) {
    act.CreateDevice? || act.TransitionDevice? || act.TouchDevice? || act.CreateStream? || act.TransitionStream?
    || act.CreatePolicy? || act.PublishPolicy? || act.LockPolicy? || act.Idle?
  }

  // Calls that change devices, streams or policies, and neither actions nor the queue.
  lemma RecordCallKeeps(s: State, act: Act)
    requires Base(s) && RecordsOnly(act)
    ensures Kept(s, Effect(s, act))
  {
    hide Base, Evolves, AfterCreateDevice, AfterTransitionDevice, AfterTouch, AfterCreateStream, AfterTransitionStream, AfterCreatePolicy, AfterPublish, AfterLock;
    NoTurn(s);
    match act
    case Idle =>
    case CreateDevice(id, name, site, model, at) => CreateDeviceKeeps(s, id, name, site, model, at);
    case TransitionDevice(id, to, at) => TransitionDeviceKeeps(s, id, to, at);
    case TouchDevice(id, seen, at) => TouchKeeps(s, id, seen, at);
    case CreateStream(_, _, _, _, _, _, _) => CreateStreamKeeps(s, act);
    case TransitionStream(id, to, at) => TransitionStreamKeeps(s, id, to, at);
    case CreatePolicy(actor, policy, at) => CreatePolicyKeeps(s, actor, policy, at);
    case PublishPolicy(id, _, found, at) => PublishKeeps(s, id, found, at);
    case LockPolicy(id, at) => LockKeeps(s, id, at);
  }

  lemma RecordCallFrame(s: State, act: Act)
    requires RecordsOnly(act)
    ensures KeepsWork(s, Effect(s, act)) && Effect(s, act).now == s.now
    ensures Effect(s, act).db.anomalies == s.db.anomalies && Effect(s, act).db.samples == s.db.samples
  {
    hide NewDevice, NewStream, NewPolicy, Device.Transition, Device.Touch, Stream.Transition, Policy.Publish, Policy.Lock, Superseded;
  }

  // Calls that change one incident or its evidence: their effect does not look at the clock.
  lemma ClockFree(s: State, id: string, at: int, attached: int, t: int, input: ActionInput)
    ensures AfterRollup(s.(now := t), id, at, attached) == AfterRollup(s, id, at, attached).(now := t)
    ensures AfterCreateAction(s.(now := t), input, at, attached) == AfterCreateAction(s, input, at, attached).(now := t)
    ensures AfterRollup(s, id, at, attached).now == s.now && AfterCreateAction(s, input, at, attached).now == s.now
  {
    hide RollupBody, AttachedEvidence, Blank;
  }

  lemma IncidentCallKeeps(s: State, act: Act, end: int)
    requires Base(s) && Fits(s, act, end)
    requires act.TransitionIncident? || act.AddEvidence? || act.RollupEvidence? || act.CreateAction?
    ensures Kept(s, Effect(s, act).(now := end))
    ensures Retries(s, None) ==> Retries(Effect(s, act), None)
  {
    hide Base, Evolves, RetryQueued, AfterTransitionIncident, AfterAddEvidence, AfterRollup, AfterCreateAction;
    match act
    case TransitionIncident(id, to, at) =>
      Later(s, at, s.sequence);
      TransitionIncidentKeeps(s.(now := at), id, to);
      TransitionIncidentFrame(s.db, id, to, at);
      KeptThenLater(s, s.(now := at), Effect(s, act).(now := at), end);
    case AddEvidence(id, evidence, at, attached) =>
      Later(s, attached, s.sequence);
      AddEvidenceKeeps(s.(now := attached), id, evidence, at);
      AddEvidenceFrame(s.db, id, evidence, at, attached);
      KeptThenLater(s, s.(now := attached), Effect(s, act).(now := attached), end);
    case RollupEvidence(id, at, attached) =>
      Later(s, attached, s.sequence);
      RollupKeeps(s.(now := attached), id, at);
      ClockFree(s, id, at, attached, attached, ActionInput("", "", Notify, 0, "", ""));
      KeptThenLater(s, s.(now := attached), Effect(s, act).(now := attached), end);
      WorkKeepsRetries(s.(now := attached), Effect(s, act).(now := attached), None);
    case CreateAction(action, at, attached) =>
      Later(s, attached, s.sequence);
      CreateActionKeeps(s.(now := attached), action, at);
      ClockFree(s, "", at, attached, attached, action);
      KeptThenLater(s, s.(now := attached), Effect(s, act).(now := attached), end);
  }

  lemma KeptThenLater(a: State, b: State, c: State, end: int)
    requires Base(b) && Evolves(a, b) && Kept(b, c) && c.now <= end
    ensures Kept(a, c.(now := end))
  {
    Later(c, end, c.sequence) by { hide Evolves; }
    hide Base, Evolves;
    KeptTwice(b, c, c.(now := end));
    KeptTwice(a, b, c.(now := end));
  }

  lemma WorkKeepsRetries(s: State, s': State, x: Option<string>)
    requires KeepsWork(s, s')
    ensures Retries(s, x) ==> Retries(s', x)
  {
  }

  lemma TransitionIncidentFrame(db: Db, id: string, to: IncidentStatus, at: int)
    ensures AfterTransitionIncident(db, id, to, at).actions == db.actions
    ensures AfterTransitionIncident(db, id, to, at).anomalies == db.anomalies
    ensures AfterTransitionIncident(db, id, to, at).samples == db.samples && AfterTransitionIncident(db, id, to, at).devices == db.devices
  {
  }

  lemma AddEvidenceFrame(db: Db, id: string, input: EvidenceInput, at: int, attached: int)
    ensures AfterAddEvidence(db, id, input, at, attached).actions == db.actions
    ensures AfterAddEvidence(db, id, input, at, attached).anomalies == db.anomalies
    ensures AfterAddEvidence(db, id, input, at, attached).samples == db.samples && AfterAddEvidence(db, id, input, at, attached).devices == db.devices
  {
    hide Blank;
  }

  lemma ExecuteFrame(s: State, id: string, at: int, finished: int)
    ensures AfterExecute(s, id, at, finished).now == s.now
    ensures AfterExecute(s, id, at, finished).db.anomalies == s.db.anomalies
    ensures AfterExecute(s, id, at, finished).db.samples == s.db.samples && AfterExecute(s, id, at, finished).db.devices == s.db.devices
  {
  }

  lemma AttachedEvidenceFrame(db: Db, inc: Incident, e: Evidence, attached: int)
    ensures var db' := AttachedEvidence(db, inc, e, attached);
            db'.anomalies == db.anomalies && db'.samples == db.samples && db'.actions == db.actions && db'.devices == db.devices
  {
    hide Incident.AttachEvidence;
  }

  lemma RollupFrame(s: State, id: string, at: int, attached: int)
    ensures var s' := AfterRollup(s, id, at, attached);
            && s'.db.anomalies == s.db.anomalies && s'.db.samples == s.db.samples && s'.db.actions == s.db.actions
            && s'.jobs == s.jobs && s'.inHand == s.inHand && s'.db.devices == s.db.devices
  {
    if id in s.db.incidents {
      var inc := s.db.incidents[id];
      var made := NewEvidence(NumberedId("evidence", s.sequence + 1), id, DeviceSnapshot, "Automatic incident snapshot", RollupBody(inc), "orbit-rollup", at);
      if made.Ok? {
        AttachedEvidenceFrame(s.db, inc, made.value, attached);
      }
    }
    hide NewEvidence, AttachedEvidence, RollupBody, NumberedId;
  }

  // A write changes only the part it is about, and the queue no record.
  lemma WritesFrame(db: Db, action: Action, inc: Incident)
    ensures db.PutAction(action).Or(db) == db.(actions := db.PutAction(action).Or(db).actions, idempotency := db.PutAction(action).Or(db).idempotency)
    ensures db.UpdateIncident(inc).Or(db) == db.(incidents := db.UpdateIncident(inc).Or(db).incidents)
  {
  }

  lemma QueuedActionFrame(s: State, inc: Incident, action: Action, attached: int)
    ensures var s' := QueuedAction(s, inc, action, attached);
            s'.db.anomalies == s.db.anomalies && s'.db.samples == s.db.samples && s'.db.devices == s.db.devices
  {
    hide Incident.AttachAction, Db.PutAction, Db.UpdateIncident;
    var inc' := inc.AttachAction(action.id, attached).Or(inc);
    WritesFrame(s.db, action, inc');
    WritesFrame(s.db.PutAction(action).Or(s.db), action, inc');
  }

  lemma CreateActionFrame(s: State, input: ActionInput, at: int, attached: int)
    ensures var s' := AfterCreateAction(s, input, at, attached);
            s'.db.anomalies == s.db.anomalies && s'.db.samples == s.db.samples && s'.db.devices == s.db.devices
  {
    hide NewAction, QueuedAction;
    if input.incidentId in s.db.incidents {
      var inc := s.db.incidents[input.incidentId];
      var made := NewAction(input.id, input.incidentId, inc.deviceId, input.kind, input.maxAttempts, input.idempotency, input.reason, at);
      if made.Ok? {
        QueuedActionFrame(s, inc, made.value, attached);
      }
    }
  }

  // Calls on actions, ingestion and evaluation, as a caller or a worker makes them.
  lemma WorkCallKeeps(s: State, act: Act, end: int)
    requires Base(s) && Fits(s, act, end)
    requires act.ExecuteAction? || act.CancelAction? || act.IngestTelemetry? || act.EvaluateTelemetry?
    ensures Kept(s, Effect(s, act).(now := end))
    ensures Retries(s, if act.ExecuteAction? then Some(act.id) else None) ==> Retries(Effect(s, act), None)
  {
    hide Base, Evolves, RetryQueued, AfterExecute, AfterCancel, AfterIngest, AfterEvaluate;
    Later(s, s.now, s.sequence);
    match act
    case ExecuteAction(id, at, finished) =>
      ExecuteKeeps(s, id, at, finished);
      ExecuteFrame(s, id, at, finished);
      KeptThenLater(s, s, Effect(s, act), end);
    case CancelAction(id, at) =>
      CancelKeeps(s, id, at);
      KeptThenLater(s, s, Effect(s, act), end);
    case IngestTelemetry(samples, at, touches) =>
      IngestKeeps(s, samples, at, touches);
      KeptThenLater(s, s, Effect(s, act), end);
      WorkKeepsRetries(s, Effect(s, act), None);
    case EvaluateTelemetry(_, _, _, _, _, _) =>
      EvaluateKeeps(s, act, end);
      KeptThenLater(s, s, Effect(s, act), end);
      WorkKeepsRetries(s, Effect(s, act), None);
  }

  lemma ReceiveKeeps(s: State)
    requires Base(s) && s.jobs != []
    ensures Kept(s, Effect(s, Receive)) && Effect(s, Receive).now == s.now
    ensures Retries(s, None) ==> Retries(Effect(s, Receive), None)
  {
    hide DbOk, Core, DbEvolves;
    NothingChanges(s.db);
    var s' := Effect(s, Receive);
    assert s.jobs == [s.jobs[0]] + s.jobs[1..];
    forall w ensures InFlight(s'.jobs, s'.inHand, w) <==> InFlight(s.jobs, s.inHand, w) {
    }
  }

  // A job leaves the worker's hand; only a response action can miss it.
  lemma TakenFromHand(s: State, slot: nat)
    requires Base(s) && slot < |s.inHand|
    ensures var s' := s.(inHand := Without(s.inHand, slot)); Kept(s, s')
    ensures var s' := s.(inHand := Without(s.inHand, slot));
            Retries(s, None) ==> Retries(s', if s.inHand[slot].Response? then Some(s.inHand[slot].actionId) else None)
  {
    hide DbOk, Core, DbEvolves;
    NothingChanges(s.db);
    var rest := Without(s.inHand, slot);
    assert s.inHand == s.inHand[..slot] + [s.inHand[slot]] + s.inHand[slot + 1..];
    forall w ensures w in s.inHand <==> w in rest || w == s.inHand[slot] {
    }
  }

  /** One call keeps the invariant and evolves the system as it may. */
  lemma CallKeeps(s: State, act: Act, end: int)
    requires Base(s) && Fits(s, act, end)
    ensures Kept(s, Effect(s, act).(now := end))
    ensures Retries(s, if act.ExecuteAction? then Some(act.id) else None) ==> Retries(Effect(s, act).(now := end), None)
    decreases act
  {
    hide Base, Evolves, RetryQueued;
    if act.Handle? {
      var s1 := s.(inHand := Without(s.inHand, act.slot));
      TakenFromHand(s, act.slot);
      CallKeeps(s1, act.handler, end);
      KeptTwice(s, s1, Effect(s, act).(now := end));
    } else if act.Receive? {
      Later(s, s.now, s.sequence);
      ReceiveKeeps(s);
      KeptThenLater(s, s, Effect(s, act), end);
    } else if RecordsOnly(act) {
      Later(s, s.now, s.sequence);
      RecordCallKeeps(s, act);
      RecordCallFrame(s, act);
      KeptThenLater(s, s, Effect(s, act), end);
      WorkKeepsRetries(s, Effect(s, act), None);
    } else if act.TransitionIncident? || act.AddEvidence? || act.RollupEvidence? || act.CreateAction? {
      IncidentCallKeeps(s, act, end);
    } else {
      WorkCallKeeps(s, act, end);
    }
  }

  // ----- Every run -----

  lemma InitialIsOk(s: State)
    requires Initial(s)
    ensures Inv(s) && Orphans(s.db.anomalies) == {}
  {
  }

  /** The invariant holds in every state a run from a state satisfying it can reach. */
  lemma {:induction false} RunKeeps(s: State, calls: seq<Call>)
    requires Inv(s) && CanRun(s, calls)
    ensures Inv(Run(s, calls)) && Evolves(s, Run(s, calls))
  {
    hide Base, Evolves, Retries, Fits, Effect;
    if calls == [] {
      NoTurn(s);
    } else {
      var front := calls[..|calls| - 1];
      var call := calls[|calls| - 1];
      RunKeeps(s, front);
      RetriesExcept(Run(s, front), call.act);
      CallKeeps(Run(s, front), call.act, call.end);
      EvolvesIsTransitive(s, Run(s, front), Run(s, calls));
    }
  }

  lemma RetriesExcept(s: State, act: Act)
    requires Retries(s, None)
    ensures Retries(s, if act.ExecuteAction? then Some(act.id) else None)
  {
  }

  // A run is its first calls followed by the rest.
  lemma {:induction false} RunInTwo(s: State, calls: seq<Call>, n: nat)
    requires CanRun(s, calls) && n <= |calls|
    ensures CanRun(s, calls[..n]) && CanRun(Run(s, calls[..n]), calls[n..])
    ensures Run(s, calls) == Run(Run(s, calls[..n]), calls[n..])
  {
    hide Fits, Apply;
    if n == |calls| {
      assert calls[..n] == calls;
    } else {
      var front, rest := calls[..|calls| - 1], calls[n..];
      RunInTwo(s, front, n);
      assert front[..n] == calls[..n] && front[n..] == rest[..|rest| - 1];
    }
  }
}
