/** Every call keeps the invariant and lets the system evolve only as it may. */
module Preservation {
  import opened Basics
  import opened Decimal
  import opened Domain
  import opened Store
  import opened Telemetry
  import opened Calls
  import opened IncidentFacts
  import opened Linkage
  import opened Invariant

  // The part of the state the retry protocol lives on.
  ghost predicate KeepsWork(s: State, s': State) {
    && s'.db.actions == s.db.actions && s'.inHand == s.inHand && s.refused <= s'.refused
    && forall w | w in s.jobs :: w in s'.jobs
  }

  ghost predicate Kept(s: State, s': State) {
    Base(s') && Evolves(s, s')
  }

  lemma KeptTwice(a: State, b: State, c: State)
    requires Kept(a, b) && Kept(b, c)
    ensures Kept(a, c)
  {
    hide Base, DbEvolves;
    hide Evolves;
    EvolvesIsTransitive(a, b, c);
  }

  // ----- Devices, streams, policies -----

  lemma TouchKeeps(s: State, id: string, seen: int, at: int)
    requires Base(s)
    ensures Kept(s, s.(db := AfterTouch(s.db, id, seen, at)))
  {
    NothingChanges(s.db);
    if id in s.db.devices && s.db.devices[id].Touch(seen, at).Ok? {
      hide Core, JobsOk, DbEvolves;
      DeviceChange(s, s.db.devices[id].Touch(seen, at).value);
    }
  }

  lemma TransitionDeviceKeeps(s: State, id: string, to: DeviceStatus, at: int)
    requires Base(s)
    ensures Kept(s, s.(db := AfterTransitionDevice(s.db, id, to, at)))
  {
    NothingChanges(s.db);
    if id in s.db.devices && s.db.devices[id].Transition(to, at).Ok? {
      hide Core, JobsOk, DbEvolves;
      DeviceChange(s, s.db.devices[id].Transition(to, at).value);
    }
  }

  lemma CreateDeviceKeeps(s: State, id: string, name: string, site: string, model: string, at: int)
    requires Base(s)
    ensures Kept(s, s.(db := AfterCreateDevice(s.db, id, name, site, model, at)))
  {
    hide Core, JobsOk, DbOk, DbEvolves;
    NothingChanges(s.db);
    if NewDevice(id, name, site, model, at).Ok? && id !in s.db.devices {
      DeviceChange(s, NewDevice(id, name, site, model, at).value);
    }
  }

  lemma TransitionStreamKeeps(s: State, id: string, to: StreamStatus, at: int)
    requires Base(s)
    ensures Kept(s, s.(db := AfterTransitionStream(s.db, id, to, at)))
  {
    hide Core, JobsOk, DbEvolves, DevicesOk, SamplesOk, PoliciesOk, ActionsOk, EvidenceOk, Blank;
    NothingChanges(s.db);
    if id in s.db.streams && s.db.streams[id].Transition(to, at).Ok? {
      StreamChange(s, s.db.streams[id].Transition(to, at).value);
    }
  }

  lemma CreateStreamKeeps(s: State, act: Act)
    requires Base(s) && act.CreateStream?
    ensures Kept(s, s.(db := AfterCreateStream(s.db, act)))
  {
    hide Core, JobsOk, DbEvolves, DbOk;
    NothingChanges(s.db);
    var made := NewStream(act.id, act.deviceId, act.name, act.signal, act.unit, act.period, act.at);
    if act.deviceId in s.db.devices && made.Ok? && act.id !in s.db.streams {
      TrimmedIsBlankIffBlank(act.signal);
      StreamChange(s, made.value);
    }
  }

  lemma CreatePolicyKeeps(s: State, actor: string, p: PolicyInput, at: int)
    requires Base(s)
    ensures Kept(s, s.(db := AfterCreatePolicy(s.db, actor, p, at)))
  {
    hide Core, JobsOk, DbEvolves, DbOk;
    NothingChanges(s.db);
    var made := NewPolicy(p.id, p.name, p.deviceId, actor, p.version, p.rules, p.maxRetries, p.from, at);
    if p.deviceId in s.db.devices && made.Ok? && p.id !in s.db.policies {
      PolicyChange(s, made.value);
    }
  }

  lemma PublishKeeps(s: State, id: string, found: Option<string>, at: int)
    requires Base(s)
    ensures Kept(s, s.(db := AfterPublish(s.db, id, found, at)))
  {
    hide Core, JobsOk, DbEvolves, DevicesOk, SamplesOk, StreamsOk, ActionsOk, EvidenceOk, Blank;
    NothingChanges(s.db);
    if id in s.db.policies && s.db.policies[id].Publish(at).Ok? {
      assert PolicyOk(s.db.policies[id]);
      PolicyChange(s, s.db.policies[id].Publish(at).value);
    }
  }

  lemma LockKeeps(s: State, id: string, at: int)
    requires Base(s)
    ensures Kept(s, s.(db := AfterLock(s.db, id, at)))
  {
    hide Core, JobsOk, DbEvolves, DevicesOk, SamplesOk, StreamsOk, ActionsOk, EvidenceOk, Blank;
    NothingChanges(s.db);
    if id in s.db.policies && s.db.policies[id].Lock(at).Ok? {
      assert PolicyOk(s.db.policies[id]);
      PolicyChange(s, s.db.policies[id].Lock(at).value);
    }
  }

  // ----- Ingestion -----

  lemma {:induction false} VettedAreOk(db: Db, inputs: seq<SampleInput>, now: int)
    requires StreamsOk(db.streams, db.devices)
    requires Vet(db, inputs, now).Ok?
    ensures AllOk(db, inputs, Vet(db, inputs, now).value)
  {
    if inputs != [] {
      var front, last := inputs[..|inputs| - 1], inputs[|inputs| - 1];
      VetSplits(db, inputs, now);
      VettedAreOk(db, front, now);
      VettedIsOk(db, last, now);
      hide Vet, VetOne, SampleOk, StreamsOk;
      OneMoreOk(db, inputs, Vet(db, front, now).value, VetOne(db, last, now).value);
    }
  }

  // A vetted batch: one sample for each input, all of stored streams.
  ghost predicate AllOk(db: Db, inputs: seq<SampleInput>, samples: seq<Sample>) {
    && |samples| == |inputs|
    && (forall x | x in samples :: SampleOk(x, db.streams))
    && (forall i | 0 <= i < |inputs| :: inputs[i].streamId in db.streams)
  }

  lemma OneMoreOk(db: Db, inputs: seq<SampleInput>, samples: seq<Sample>, sample: Sample)
    requires inputs != [] && AllOk(db, inputs[..|inputs| - 1], samples)
    requires SampleOk(sample, db.streams) && inputs[|inputs| - 1].streamId in db.streams
    ensures AllOk(db, inputs, samples + [sample])
  {
    hide SampleOk;
    forall i | 0 <= i < |inputs| ensures inputs[i].streamId in db.streams {
      if i < |inputs| - 1 {
        assert inputs[i] == inputs[..|inputs| - 1][i];
      }
    }
  }

  lemma VetSplits(db: Db, inputs: seq<SampleInput>, now: int)
    requires inputs != [] && Vet(db, inputs, now).Ok?
    ensures var front, last := Vet(db, inputs[..|inputs| - 1], now), VetOne(db, inputs[|inputs| - 1], now);
            front.Ok? && last.Ok? && Vet(db, inputs, now).value == front.value + [last.value]
  {
    hide VetOne;
  }

  lemma VettedIsOk(db: Db, input: SampleInput, now: int)
    requires StreamsOk(db.streams, db.devices) && VetOne(db, input, now).Ok?
    ensures input.streamId in db.streams && SampleOk(VetOne(db, input, now).value, db.streams)
  {
  }

  lemma StreamIsKeyed(s: State, id: string)
    requires Base(s) && id in s.db.streams
    ensures s.db.streams[id].id == id
  {
    hide Core, JobsOk;
  }

  lemma SubmitKeepsWork(s: State, work: Work)
    ensures KeepsWork(s, Submit(s, work)) && Submit(s, work).db == s.db && Submit(s, work).now == s.now
  {
  }

  lemma OneTouchKeeps(s: State, t: Touch, now: int)
    requires Base(s)
    ensures var s' := AfterOneTouch(s, t, now);
            Kept(s, s') && KeepsWork(s, s') && s'.db == s.db.(devices := s'.db.devices) && s'.now == s.now
  {
    hide Base, DbEvolves, AfterTouch, Submit;
    if t.streamId in s.db.streams {
      var stream := s.db.streams[t.streamId];
      StreamIsKeyed(s, t.streamId);
      var touched := if t.live then s.(db := AfterTouch(s.db, stream.deviceId, now, t.at)) else s;
      TouchKeeps(s, stream.deviceId, now, t.at);
      TouchOnlyDevices(s.db, stream.deviceId, now, t.at);
      NothingChanges(s.db);
      Submitted(touched, Evaluation(stream.id, stream.deviceId));
      SubmitKeepsWork(touched, Evaluation(stream.id, stream.deviceId));
      KeptTwice(s, touched, AfterOneTouch(s, t, now));
    } else {
      NothingChanges(s.db);
    }
  }

  lemma TouchOnlyDevices(db: Db, id: string, seen: int, at: int)
    ensures AfterTouch(db, id, seen, at) == db.(devices := AfterTouch(db, id, seen, at).devices)
  {
  }

  lemma {:induction false} TouchesKeep(s: State, touches: seq<Touch>, now: int)
    requires Base(s)
    ensures var s' := AfterTouches(s, touches, now);
            Kept(s, s') && KeepsWork(s, s') && s'.db == s.db.(devices := s'.db.devices) && s'.now == s.now
  {
    hide Base, DbEvolves, AfterOneTouch;
    if touches == [] {
      NothingChanges(s.db);
    } else {
      var front := AfterTouches(s, touches[..|touches| - 1], now);
      TouchesKeep(s, touches[..|touches| - 1], now);
      OneTouchKeeps(front, touches[|touches| - 1], now);
      KeptTwice(s, front, AfterTouches(s, touches, now));
    }
  }

  lemma IngestKeeps(s: State, inputs: seq<SampleInput>, at: int, touches: seq<Touch>)
    requires Base(s)
    ensures var s' := AfterIngest(s, inputs, at, touches);
            Kept(s, s') && KeepsWork(s, s') && s'.now == s.now && s'.db.anomalies == s.db.anomalies
  {
    hide Core, JobsOk, DbEvolves, DevicesOk, SamplesOk, PoliciesOk, ActionsOk, EvidenceOk, StreamsOk, Evolves;
    assert Evolves(s, s) by { Later(s, s.now, s.sequence); }
    if inputs != [] && Vet(s.db, inputs, at).Ok? {
      VettedAreOk(s.db, inputs, at);
      var stored := s.(db := s.db.AddSamples(Vet(s.db, inputs, at).value));
      SamplesChange(s, Vet(s.db, inputs, at).value);
      TouchesKeep(stored, touches, at);
      KeptTwice(s, stored, AfterIngest(s, inputs, at, touches));
    }
  }

  // ----- Incidents, evidence -----

  lemma TransitionIncidentKeeps(s: State, id: string, to: IncidentStatus)
    requires Base(s)
    ensures Kept(s, s.(db := AfterTransitionIncident(s.db, id, to, s.now)))
  {
    hide JobsOk, DbEvolves, DbOk, Good, AnomaliesLinked, Separated, IdsIssued;
    NothingChanges(s.db);
    if id in s.db.incidents {
      var inc := s.db.incidents[id];
      if inc.Transition(to, s.now).Ok? && (to == Closed ==> inc.ReadyToClose()) {
        GoodAfterTransition(s.db.anomalies, s.db.actions, s.db.evidence, s.now, inc, to);
        IncidentChange(s, inc.Transition(to, s.now).value);
      }
    }
  }

  // Evidence of an incident is stored, then attached to it.
  lemma AttachedEvidenceKeeps(s: State, id: string, e: Evidence)
    requires Base(s) && id in s.db.incidents && e.incidentId == id
    ensures Kept(s, s.(db := AttachedEvidence(s.db, s.db.incidents[id], e, s.now)))
  {
    hide JobsOk, DbEvolves, DbOk, Good, AnomaliesLinked, Separated, IdsIssued;
    NothingChanges(s.db);
    if e.id !in s.db.evidence {
      EvidenceChange(s, e);
      var stored := s.(db := s.db.(evidence := s.db.evidence[e.id := e]));
      var inc := s.db.incidents[id];
      GoodAfterAttachEvidence(stored.db.anomalies, stored.db.actions, stored.db.evidence, s.now, inc, e.id);
      IncidentChange(stored, inc.AttachEvidence(e.id, s.now).Or(inc));
      KeptTwice(s, stored, s.(db := AttachedEvidence(s.db, inc, e, s.now)));
    }
  }

  lemma AddEvidenceKeeps(s: State, id: string, input: EvidenceInput, at: int)
    requires Base(s)
    ensures Kept(s, s.(db := AfterAddEvidence(s.db, id, input, at, s.now)))
  {
    hide Base, DbEvolves, AttachedEvidence;
    NothingChanges(s.db);
    if id in s.db.incidents && s.db.incidents[id].status != Closed {
      var made := NewEvidence(input.id, id, input.kind, input.title, input.body, input.source, at);
      if made.Ok? {
        AttachedEvidenceKeeps(s, id, made.value);
      }
    }
  }

  lemma EvidenceNamesIncident(id: string, incidentId: string, kind: EvidenceKind, title: string, body: string, source: string, now: int)
    requires NewEvidence(id, incidentId, kind, title, body, source, now).Ok?
    ensures NewEvidence(id, incidentId, kind, title, body, source, now).value.incidentId == incidentId
  {
    hide Blank, TrimSpace;
  }

  lemma RollupKeeps(s: State, id: string, at: int)
    requires Base(s)
    ensures Kept(s, AfterRollup(s, id, at, s.now)) && KeepsWork(s, AfterRollup(s, id, at, s.now))
  {
    hide Base, DbEvolves, RollupBody, NewEvidence, NumberedId, Incident.AttachEvidence;
    NothingChanges(s.db);
    if id in s.db.incidents {
      var s1 := s.(sequence := s.sequence + 1);
      Later(s, s.now, s.sequence + 1);
      var number, body := NumberedId("evidence", s1.sequence), RollupBody(s.db.incidents[id]);
      var made := NewEvidence(number, id, DeviceSnapshot, "Automatic incident snapshot", body, "orbit-rollup", at);
      if made.Ok? {
        EvidenceNamesIncident(number, id, DeviceSnapshot, "Automatic incident snapshot", body, "orbit-rollup", at);
        AttachedEvidenceKeeps(s1, id, made.value);
        var s2 := s1.(db := AttachedEvidence(s1.db, s1.db.incidents[id], made.value, s.now));
        assert AfterRollup(s, id, at, s.now) == s2;
        KeptTwice(s, s1, s2);
      }
    }
  }

  // ----- Actions -----

  lemma ActionReplaced(actions: Actions, index: map<string, string>, a: Action)
    requires ActionsOk(actions, index) && a.id in actions && SameRequest(actions[a.id], a)
    requires WithinBudget(a) && AtRest(a)
    ensures ActionsOk(actions[a.id := a], index)
  {
  }

  lemma CancelKeeps(s: State, id: string, at: int)
    requires Base(s)
    ensures var s' := s.(db := AfterCancel(s.db, id, at));
            Kept(s, s') && forall x :: Retries(s, x) ==> Retries(s', x)
  {
    hide CoreOk, JobsOk, DbEvolves, DevicesOk, SamplesOk, StreamsOk, PoliciesOk, EvidenceOk;
    NothingChanges(s.db);
    if id in s.db.actions && s.db.actions[id].Cancel(at).Ok? {
      var a := s.db.actions[id].Cancel(at).value;
      BudgetIsKept(s.db.actions[id], at, true, "");
      ActionReplaced(s.db.actions, s.db.idempotency, a);
      ActionChange(s, a, s.db.idempotency);
    }
  }

  // What one execution leaves of an action, and when it is tried again.
  lemma Executed(a: Action, at: int, finished: int)
    requires WithinBudget(a) && AtRest(a) && !a.kind.OtherActionType?
    ensures a.Start(at).Ok? <==> Unfinished(a)
    ensures a.Start(at).Ok? ==>
              var started := a.Start(at).value;
              var done := started.Finish(started.Simulate().0, started.Simulate().1, finished);
              && SameRequest(a, done) && WithinBudget(done) && AtRest(done) && done.attempt == a.attempt + 1
              && (Unfinished(done) <==> !started.Simulate().0 && done.CanRetry())
  {
  }

  function FinishedRun(a: Action, at: int, finished: int): Action
    requires a.Start(at).Ok?
  {
    var started := a.Start(at).value;
    started.Finish(started.Simulate().0, started.Simulate().1, finished)
  }

  // The two updates of one execution amount to one.
  lemma ExecuteIs(s: State, id: string, at: int, finished: int)
    requires id in s.db.actions && s.db.actions[id].id == id
    ensures var a := s.db.actions[id];
            AfterExecute(s, id, at, finished) ==
              if !a.Start(at).Ok? then s
              else
                var done := FinishedRun(a, at, finished);
                var s1 := s.(db := s.db.(actions := s.db.actions[id := done]));
                if done.CanRetry() then Submit(s1, Response(id)) else s1
  {
    hide Submit;
    var a := s.db.actions[id];
    if a.Start(at).Ok? {
      var done := FinishedRun(a, at, finished);
      assert s.db.actions[id := a.Start(at).value][id := done] == s.db.actions[id := done];
    }
  }

  lemma ExecuteKeeps(s: State, id: string, at: int, finished: int)
    requires Base(s)
    ensures var s' := AfterExecute(s, id, at, finished);
            Kept(s, s') && (Retries(s, Some(id)) ==> Retries(s', None))
  {
    if id in s.db.actions {
      ActionIsOk(s, id);
      ExecuteIs(s, id, at, finished);
      hide Base, DbEvolves, AfterExecute, Submit, RetryQueued;
      var a := s.db.actions[id];
      NothingChanges(s.db);
      Executed(a, at, finished);
      if a.Start(at).Ok? {
        var done := FinishedRun(a, at, finished);
        var s1 := s.(db := s.db.(actions := s.db.actions[id := done]));
        RunReplaced(s, id, done);
        if done.CanRetry() {
          Submitted(s1, Response(id));
          KeptTwice(s, s1, Submit(s1, Response(id)));
          SubmitKeepsWork(s1, Response(id));
          RetryRestored(Submit(s1, Response(id)), id);
        } else {
          RetryRestored(s1, id);
        }
      } else {
        RetryRestored(s, id);
      }
    } else {
      NothingChanges(s.db);
      RetryRestored(s, id);
    }
  }

  lemma ActionIsOk(s: State, id: string)
    requires Base(s) && id in s.db.actions
    ensures var a := s.db.actions[id]; a.id == id && WithinBudget(a) && AtRest(a) && !a.kind.OtherActionType?
  {
    hide CoreOk, JobsOk, DevicesOk, SamplesOk, StreamsOk, PoliciesOk, EvidenceOk;
  }

  lemma RunReplaced(s: State, id: string, done: Action)
    requires Base(s) && id in s.db.actions && done.id == id
    requires WithinBudget(done) && AtRest(done) && ActionEvolves(s.db.actions[id], done)
    ensures var s1 := s.(db := s.db.(actions := s.db.actions[id := done]));
            Kept(s, s1) && (Retries(s, Some(id)) ==> Retries(s1, Some(id)))
  {
    hide CoreOk, JobsOk, DbEvolves, DevicesOk, SamplesOk, StreamsOk, PoliciesOk, EvidenceOk, RetryQueued, WithinBudget, AtRest;
    ActionReplaced(s.db.actions, s.db.idempotency, done);
    ActionChange(s, done, s.db.idempotency);
    var s1 := s.(db := s.db.(actions := s.db.actions[id := done]));
    assert s1.db == s.db.(actions := s.db.actions[id := done], idempotency := s.db.idempotency);
  }

  // The excepted action needs no job of its own when it is finished, or when its job is there.
  lemma RetryRestored(s: State, id: string)
    requires id in s.db.actions && Unfinished(s.db.actions[id]) ==> InFlight(s.jobs, s.inHand, Response(id)) || Response(id) in s.refused
    ensures Retries(s, Some(id)) ==> Retries(s, None)
  {
  }

  lemma ActionAdded(s: State, a: Action)
    requires Base(s) && s.db.PutAction(a).Ok? && a.status == Queued && a.attempt == 0 && a.maxAttempts >= 1
    requires !a.kind.OtherActionType?
    ensures var s1 := s.(db := s.db.PutAction(a).value);
            Kept(s, s1) && (Retries(s, None) ==> Retries(s1, Some(a.id)))
  {
    hide CoreOk, JobsOk, DbEvolves, DevicesOk, SamplesOk, StreamsOk, PoliciesOk, EvidenceOk, RetryQueued;
    var actions, index := s.db.actions[a.id := a], s.db.idempotency[a.idempotency := a.id];
    assert IndexInverts(actions, index);
    ActionChange(s, a, index);
  }

  lemma AttachActionKeeps(s: State, id: string, actionId: string)
    requires Base(s) && id in s.db.incidents && actionId in s.db.actions && s.db.actions[actionId].incidentId == id
    ensures Kept(s, s.(db := s.db.UpdateIncident(s.db.incidents[id].AttachAction(actionId, s.now).Or(s.db.incidents[id])).Or(s.db)))
  {
    hide JobsOk, DbEvolves, DbOk, Good, AnomaliesLinked, Separated, IdsIssued;
    var inc := s.db.incidents[id];
    GoodAfterAttachAction(s.db.anomalies, s.db.actions, s.db.evidence, s.now, inc, actionId);
    IncidentChange(s, inc.AttachAction(actionId, s.now).Or(inc));
  }

  lemma CreateActionKeeps(s: State, input: ActionInput, at: int)
    requires Base(s)
    ensures var s' := AfterCreateAction(s, input, at, s.now);
            Kept(s, s') && (Retries(s, None) ==> Retries(s', None))
  {
    hide Base, DbEvolves, Submit, RetryQueued;
    NothingChanges(s.db);
    if input.incidentId in s.db.incidents {
      var inc := s.db.incidents[input.incidentId];
      var made := NewAction(input.id, input.incidentId, inc.deviceId, input.kind, input.maxAttempts, input.idempotency, input.reason, at);
      if made.Ok? && s.db.PutAction(made.value).Ok? {
        var a := made.value;
        var s1 := s.(db := s.db.PutAction(a).value);
        ActionAdded(s, a);
        AttachActionKeeps(s1, input.incidentId, a.id);
        var s2 := s1.(db := s1.db.UpdateIncident(inc.AttachAction(a.id, s.now).Or(inc)).Or(s1.db));
        KeptTwice(s, s1, s2);
        assert s2.db.actions == s1.db.actions;
        Submitted(s2, Response(a.id));
        KeptTwice(s, s2, Submit(s2, Response(a.id)));
        SubmitKeepsWork(s2, Response(a.id));
        RetryRestored(Submit(s2, Response(a.id)), a.id);
        assert Submit(s2, Response(a.id)) == AfterCreateAction(s, input, at, s.now);
      }
    }
  }

  // ----- Evaluation -----

  lemma IncidentCanBeNamed(n: nat, signal: string)
    ensures !Blank(NumberedId("incident", n)) && !Blank(IncidentTitle(signal))
  {
    assert NumberedId("incident", n)[0] == 'i' && IncidentTitle(signal)[0] == 'T';
    NotBlank(NumberedId("incident", n), 0);
    NotBlank(IncidentTitle(signal), 0);
  }

  // The scan's answer, in terms of the incidents' own signals.
  lemma ScanMeans(db: Db, ac: Actions, ev: EvidenceItems, now: int, deviceId: string, signal: string, since: int, found: Option<string>)
    requires IncidentsGood(db.anomalies, db.incidents, ac, ev, now)
    requires db.MayFind(deviceId, signal, since, found)
    ensures found.Some? ==>
              var i := found.value;
              && i in db.incidents && db.incidents[i].id == i && db.incidents[i].status != Closed
              && db.incidents[i].deviceId == deviceId && SignalOf(db.anomalies, db.incidents[i]) == signal
              && since <= db.incidents[i].openedAt
    ensures found.None? ==>
              forall j | j in db.incidents && db.incidents[j].status != Closed && db.incidents[j].deviceId == deviceId
                         && SignalOf(db.anomalies, db.incidents[j]) == signal ::
                db.incidents[j].openedAt < since
  {
    hide PeakSeverity, ListsOwn, Justified, PointBack;
    if found.Some? {
      var inc := db.incidents[found.value];
      assert ListsFindings(db.anomalies, inc);
      var k :| 0 <= k < |inc.anomalyIds| && db.SignalOf(inc.anomalyIds[k]) == signal;
      assert inc.anomalyIds[k] in inc.anomalyIds && inc.anomalyIds[0] in inc.anomalyIds;
    } else {
      forall j | j in db.incidents && db.incidents[j].status != Closed && db.incidents[j].deviceId == deviceId
                 && SignalOf(db.anomalies, db.incidents[j]) == signal
        ensures db.incidents[j].openedAt < since
      {
        var inc := db.incidents[j];
        assert ListsFindings(db.anomalies, inc) && inc.anomalyIds[0] in inc.anomalyIds;
        assert db.SignalOf(inc.anomalyIds[0]) == signal;
        assert !db.Mergeable(j, deviceId, signal, since);
      }
    }
  }

  // Only anomalies, incidents, the number and the queue change in one turn.
  ghost predicate TurnFrame(s: State, s': State) {
    && s'.db == s.db.(anomalies := s'.db.anomalies, incidents := s'.db.incidents)
    && KeepsWork(s, s') && s.now <= s'.now && s.sequence <= s'.sequence
    && AnomaliesFixed(s.db.anomalies, s'.db.anomalies) && IncidentsEvolve(s.db.incidents, s'.db.incidents)
    && SameEvaluations(s, s')
  }

  lemma TurnKeeps(s: State, s': State)
    requires Base(s) && TurnFrame(s, s') && CoreOk(s')
    ensures Kept(s, s')
  {
    hide CoreOk, AnomaliesFixed, IncidentsEvolve, DevicesOk, StreamsOk, SamplesOk, PoliciesOk, ActionsOk, EvidenceOk;
    NothingChanges(s.db);
    forall w | InFlight(s'.jobs, s'.inHand, w) && w.Evaluation? ensures JobOk(s'.db.streams, w) {
      assert InFlight(s.jobs, s.inHand, w);
    }
  }

  // Is the anomaly of this turn left without an incident?
  predicate LeavesOrphan(deviceId: string, p: Pick) {
    !p.live || (p.found == None && Blank(deviceId))
  }

  // What one turn does under the invariant.
  ghost function TurnResult(s: State, src: Source, d: Detection, p: Pick): State {
    var n := s.sequence + 1;
    var a := AnomalyFor(n, src, d, p);
    var s1 := s.(sequence := n, now := p.stamped, db := s.db.(anomalies := s.db.anomalies[a.id := a]));
    if !p.live then s1
    else if p.found.Some? && p.found.value in s.db.incidents then
      var i := s.db.incidents[p.found.value];
      s1.(db := s.db.(anomalies := s.db.anomalies[a.id := a.(incidentId := p.found.value)],
                      incidents := s.db.incidents[p.found.value := i.AddAnomaly(a.id, a.severity, p.stamped).Or(i)]))
    else
      match NewIncident(NumberedId("incident", n + 1), src.deviceId, IncidentTitle(src.signal), d.severity, a.id, p.stamped)
      case Err(_) => s1.(sequence := n + 1)
      case Ok(i) =>
        Submit(s1.(sequence := n + 1,
                   db := s.db.(anomalies := s.db.anomalies[a.id := a.(incidentId := i.id)], incidents := s.db.incidents[i.id := i])),
               EvidenceRollup(i.id))
  }

  // A turn does what TurnResult says: nothing it stores can clash.
  lemma TurnIs(s: State, src: Source, d: Detection, p: Pick)
    requires Base(s)
    ensures AfterOnePick(s, src, d, p) == TurnResult(s, src, d, p)
  {
    hide Base, NumberedId, Blank, IncidentTitle, Submit, Correlate;
    var n := s.sequence + 1;
    var a := AnomalyFor(n, src, d, p);
    FreshIn(s, n);
    var an := s.db.anomalies[a.id := a];
    var s1 := s.(sequence := n, now := p.stamped, db := s.db.(anomalies := an));
    assert s.(sequence := n, now := p.stamped).db.PutAnomaly(a) == Ok(s1.db);
    var (s2, incident) := Correlate(s1, a, p);
    if p.found.Some? && p.found.value in s.db.incidents {
      IncidentIsKeyed(s, p.found.value);
    }
    CorrelateIs(s1, a, p);
    if incident.Some? {
      var i := incident.value;
      LinkedTwice(s.db.anomalies, a, i.id);
      if !(p.found.Some? && p.found.value in s.db.incidents) {
        var begun := s1.(sequence := n + 1, db := s1.db.(incidents := s.db.incidents[i.id := i]));
        SubmitCommutes(begun, EvidenceRollup(i.id), begun.db.(anomalies := s.db.anomalies[a.id := a.(incidentId := i.id)]));
        assert s2 == Submit(begun, EvidenceRollup(i.id));
      }
    }
  }

  // The two branches of the correlation, when nothing clashes.
  lemma CorrelateIs(s: State, a: Anomaly, p: Pick)
    requires NumberedId("incident", s.sequence + 1) !in s.db.incidents
    requires p.found.Some? && p.found.value in s.db.incidents ==> s.db.incidents[p.found.value].id == p.found.value
    ensures Correlate(s, a, p) ==
              if !p.live then (s, None)
              else if p.found.Some? && p.found.value in s.db.incidents then
                var i := s.db.incidents[p.found.value];
                var i' := i.AddAnomaly(a.id, a.severity, p.stamped).Or(i);
                (s.(db := s.db.(incidents := s.db.incidents[p.found.value := i'])), Some(i'))
              else
                match NewIncident(NumberedId("incident", s.sequence + 1), a.deviceId, IncidentTitle(a.signal), a.severity, a.id, p.stamped)
                case Err(_) => (s.(sequence := s.sequence + 1), None)
                case Ok(i) =>
                  (Submit(s.(sequence := s.sequence + 1, db := s.db.(incidents := s.db.incidents[i.id := i])), EvidenceRollup(i.id)), Some(i))
  {
    hide NumberedId, Blank, IncidentTitle, Submit;
  }

  lemma LinkedTwice(an: Anomalies, a: Anomaly, i: string)
    ensures an[a.id := a][a.id := a.(incidentId := i)] == an[a.id := a.(incidentId := i)]
  {
  }

  // The queue does not look at the records.
  lemma SubmitCommutes(s: State, work: Work, db: Db)
    ensures Submit(s, work).(db := db) == Submit(s.(db := db), work) && Submit(s, work).db == s.db
  {
  }

  lemma FreshIn(s: State, n: nat)
    requires Base(s) && n == s.sequence + 1
    ensures NumberedId("anomaly", n) !in s.db.anomalies && NumberedId("incident", n + 1) !in s.db.incidents
  {
    hide DbOk, JobsOk, IncidentsGood, AnomaliesLinked, Separated;
    NextIsFresh("anomaly", s.sequence, n);
    NextIsFresh("incident", s.sequence, n + 1);
  }

  lemma IncidentIsKeyed(s: State, i: string)
    requires Base(s) && i in s.db.incidents
    ensures s.db.incidents[i].id == i && i != ""
  {
    hide DbOk, JobsOk, AnomaliesLinked, Separated, Good, PointBack;
    Nonempty(s.db.anomalies, s.db.incidents, s.sequence, i);
  }

  // ----- One turn keeps everything -----

  ghost function TurnAnomaly(s: State, src: Source, d: Detection, p: Pick): Anomaly {
    AnomalyFor(s.sequence + 1, src, d, p)
  }

  // The core after the anomaly is stored, at the time the turn ends.
  lemma TurnStores(s: State, src: Source, d: Detection, p: Pick)
    requires Base(s) && s.now <= p.stamped
    ensures var a := TurnAnomaly(s, src, d, p);
            && a.id !in s.db.anomalies
            && Core(s.db.anomalies[a.id := a], s.db.incidents, s.db.actions, s.db.evidence, p.stamped, s.sequence + 1)
  {
    hide DbOk, JobsOk, Core, NumberedId;
    var a := TurnAnomaly(s, src, d, p);
    SameActionsGrow(s.db.actions);
    assert EvidenceGrows(s.db.evidence, s.db.evidence);
    CoreLater(s.db.anomalies, s.db.incidents, s.db.actions, s.db.actions, s.db.evidence, s.db.evidence, s.now, p.stamped, s.sequence, s.sequence);
    CoreAfterPutAnomaly(s.db.anomalies, s.db.incidents, s.db.actions, s.db.evidence, p.stamped, s.sequence, a);
  }

  lemma TurnCore(s: State, src: Source, d: Detection, p: Pick)
    requires Base(s) && PickFits(s, src, d, p)
    ensures CoreOk(TurnResult(s, src, d, p))
  {
    hide Base, NumberedId, Blank, IncidentTitle, Submit, Core, Db.MayFind;
    var a := TurnAnomaly(s, src, d, p);
    var an := s.db.anomalies[a.id := a];
    TurnStores(s, src, d, p);
    if p.live {
      assert s.db.PutAnomaly(a).value == s.db.(anomalies := an);
      CoreHasGood(an, s.db.incidents, s.db.actions, s.db.evidence, p.stamped, s.sequence + 1);
      ScanMeans(s.db.(anomalies := an), s.db.actions, s.db.evidence, p.stamped, src.deviceId, src.signal, p.scanned - TEN_MINUTES, p.found);
      if p.found.Some? {
        OpenedBefore(s, p.found.value);
        TurnMerges(s, src, d, p);
      } else {
        TurnOpens(s, src, d, p);
      }
    }
  }

  lemma CoreHasGood(an: Anomalies, inc: Incidents, ac: Actions, ev: EvidenceItems, now: int, n: nat)
    requires Core(an, inc, ac, ev, now, n)
    ensures IncidentsGood(an, inc, ac, ev, now)
  {
    hide IncidentsGood;
  }

  lemma OpenedBefore(s: State, i: string)
    requires Base(s) && i in s.db.incidents
    ensures s.db.incidents[i].openedAt <= s.now
  {
    hide DbOk, JobsOk, ListsFindings, PeakSeverity, ListsOwn, PointBack, AnomaliesLinked, Separated, IdsIssued, AllInTime;
  }

  lemma TurnMerges(s: State, src: Source, d: Detection, p: Pick)
    requires p.live && p.found.Some? && p.found.value in s.db.incidents
    requires var a := TurnAnomaly(s, src, d, p);
             var an := s.db.anomalies[a.id := a];
             var i := s.db.incidents[p.found.value];
             && Core(an, s.db.incidents, s.db.actions, s.db.evidence, p.stamped, s.sequence + 1)
             && i.status != Closed && i.deviceId == src.deviceId && SignalOf(an, i) == src.signal
             && i.openedAt <= p.created <= i.openedAt + TEN_MINUTES
    ensures CoreOk(TurnResult(s, src, d, p))
  {
    hide Core, NumberedId, SignalOf;
    var a := TurnAnomaly(s, src, d, p);
    CoreAfterMerge(s.db.anomalies[a.id := a], s.db.incidents, s.db.actions, s.db.evidence, p.stamped, s.sequence + 1, a, p.found.value);
    LinkedTwice(s.db.anomalies, a, p.found.value);
  }

  lemma TurnOpens(s: State, src: Source, d: Detection, p: Pick)
    requires PickFits(s, src, d, p) && p.live && p.found == None
    requires var a := TurnAnomaly(s, src, d, p);
             Core(s.db.anomalies[a.id := a], s.db.incidents, s.db.actions, s.db.evidence, p.stamped, s.sequence + 1)
    requires var an := s.db.anomalies[TurnAnomaly(s, src, d, p).id := TurnAnomaly(s, src, d, p)];
             forall j | j in s.db.incidents && s.db.incidents[j].status != Closed && s.db.incidents[j].deviceId == src.deviceId
                        && SignalOf(an, s.db.incidents[j]) == src.signal ::
               s.db.incidents[j].openedAt < p.scanned - TEN_MINUTES
    ensures CoreOk(TurnResult(s, src, d, p))
  {
    hide NumberedId, Blank, IncidentTitle, Core;
    var a := TurnAnomaly(s, src, d, p);
    var an := s.db.anomalies[a.id := a];
    var made := NewIncident(NumberedId("incident", s.sequence + 2), src.deviceId, IncidentTitle(src.signal), d.severity, a.id, p.stamped);
    if made.Ok? {
      CoreAfterOpen(an, s.db.incidents, s.db.actions, s.db.evidence, p.stamped, s.sequence + 1, a, made.value, IncidentTitle(src.signal),
                    p.scanned - TEN_MINUTES);
      LinkedTwice(s.db.anomalies, a, made.value.id);
    } else {
      SameActionsGrow(s.db.actions);
      assert EvidenceGrows(s.db.evidence, s.db.evidence);
      CoreLater(an, s.db.incidents, s.db.actions, s.db.actions, s.db.evidence, s.db.evidence, p.stamped, p.stamped, s.sequence + 1, s.sequence + 2);
    }
  }

  lemma TurnKeepsFrame(s: State, src: Source, d: Detection, p: Pick)
    requires Base(s) && PickFits(s, src, d, p)
    ensures TurnFrame(s, TurnResult(s, src, d, p))
  {
    hide Base, NumberedId, Blank, IncidentTitle, Core, Db.MayFind, IncidentsEvolve, AnomaliesFixed, Submit, KeepsWork;
    var a := TurnAnomaly(s, src, d, p);
    TurnStores(s, src, d, p);
    FreshIn(s, s.sequence + 1);
    var s' := TurnResult(s, src, d, p);
    NothingChanges(s.db);
    assert KeepsWork(s, s') && SameEvaluations(s, s') by {
      TurnWork(s, src, d, p);
    }
    if !p.live {
      FreshAnomalyFixes(s.db.anomalies, a);
    } else if p.found.Some? && p.found.value in s.db.incidents {
      FreshAnomalyFixes(s.db.anomalies, a.(incidentId := p.found.value));
      MergeEvolves(s.db.incidents, p.found.value, a, p.stamped);
    } else {
      var made := NewIncident(NumberedId("incident", s.sequence + 2), src.deviceId, IncidentTitle(src.signal), d.severity, a.id, p.stamped);
      SubmitKeepsRecords();
      if made.Ok? {
        FreshAnomalyFixes(s.db.anomalies, a.(incidentId := made.value.id));
        FreshIncidentEvolves(s.db.incidents, made.value);
      } else {
        FreshAnomalyFixes(s.db.anomalies, a);
      }
    }
  }

  // The queue only gains, and no evaluation.
  ghost predicate SameEvaluations(s: State, s': State) {
    && s.jobs <= s'.jobs && s'.inHand == s.inHand
    && forall k | |s.jobs| <= k < |s'.jobs| :: !s'.jobs[k].Evaluation?
  }

  lemma TurnWork(s: State, src: Source, d: Detection, p: Pick)
    ensures var s' := TurnResult(s, src, d, p);
            KeepsWork(s, s') && SameEvaluations(s, s') && s'.now == p.stamped && s'.sequence >= s.sequence
  {
    hide NumberedId, Blank, IncidentTitle;
  }

  lemma FreshAnomalyFixes(an: Anomalies, a: Anomaly)
    requires a.id !in an
    ensures AnomaliesFixed(an, an[a.id := a])
  {
  }

  lemma MergeEvolves(inc: Incidents, i: string, a: Anomaly, now: int)
    requires i in inc
    ensures IncidentsEvolve(inc, inc[i := inc[i].AddAnomaly(a.id, a.severity, now).Or(inc[i])])
  {
  }

  lemma FreshIncidentEvolves(inc: Incidents, i: Incident)
    requires i.id !in inc
    ensures IncidentsEvolve(inc, inc[i.id := i])
  {
  }

  /** One turn of the loop over detections. */
  lemma OneTurnKeeps(s: State, src: Source, d: Detection, p: Pick)
    requires Base(s) && PickFits(s, src, d, p)
    ensures var s' := AfterOnePick(s, src, d, p);
            Kept(s, s') && TurnFrame(s, s') && s'.now == p.stamped
  {
    TurnIs(s, src, d, p);
    TurnCore(s, src, d, p);
    TurnKeepsFrame(s, src, d, p);
    hide Base, CoreOk, TurnFrame, AfterOnePick, NumberedId, Blank;
    TurnKeeps(s, TurnResult(s, src, d, p));
  }

  /** A turn leaves its anomaly unlinked exactly when its context was dead or its device blank. */
  lemma TurnOrphans(s: State, src: Source, d: Detection, p: Pick)
    requires Base(s) && PickFits(s, src, d, p) && 1 <= d.severity <= 5
    ensures Orphans(AfterOnePick(s, src, d, p).db.anomalies)
         == Orphans(s.db.anomalies) + if LeavesOrphan(src.deviceId, p) then {TurnAnomaly(s, src, d, p).id} else {}
  {
    hide Base, Blank, IncidentTitle, AfterOnePick, Db.MayFind, Submit, NumberedId;
    var a := TurnAnomaly(s, src, d, p);
    TurnIs(s, src, d, p);
    FreshIn(s, s.sequence + 1);
    IncidentCanBeNamed(s.sequence + 2, src.signal);
    if p.live {
      ScanAnswersStored(s.db.PutAnomaly(a).value, src.deviceId, src.signal, p.scanned - TEN_MINUTES, p.found);
      if p.found.Some? {
        IncidentIsKeyed(s, p.found.value);
        OrphansAfter(s.db.anomalies, a.(incidentId := p.found.value));
      } else {
        IdIsNotEmpty(s.sequence + 2);
        SubmitKeepsRecords();
        OrphansAfter(s.db.anomalies, a.(incidentId := NumberedId("incident", s.sequence + 2)));
      }
    }
    OrphansAfter(s.db.anomalies, a);
  }

  lemma OrphansAfter(an: Anomalies, a: Anomaly)
    requires a.id !in an
    ensures Orphans(an[a.id := a]) == Orphans(an) + if a.incidentId == "" then {a.id} else {}
  {
  }

  lemma ScanAnswersStored(db: Db, deviceId: string, signal: string, since: int, found: Option<string>)
    requires db.MayFind(deviceId, signal, since, found)
    ensures found.Some? ==> found.value in db.incidents
  {
  }

  lemma IdIsNotEmpty(n: nat)
    ensures NumberedId("incident", n) != ""
  {
  }

  lemma SubmitKeepsRecords()
    ensures forall s, work :: Submit(s, work).db == s.db && Submit(s, work).now == s.now && Submit(s, work).sequence == s.sequence
  {
  }
}
