/** Each shape of change a service method makes is one of the calls of a run, and keeps the invariant. */
module Happenings {
  import opened Basics
  import opened Domain
  import opened Store
  import opened Calls
  import opened Invariant
  import opened Runs

  // The call happened as described: it could, and the state is what it makes of the state before.
  ghost predicate Does(before: State, act: Act, after: State) {
    Fits(before, act, after.now) && after == Effect(before, act).(now := after.now)
  }

  /** A call that happened from a good state leads to a good state. */
  lemma DoesKeeps(before: State, act: Act, after: State)
    requires Inv(before) && Does(before, act, after)
    ensures Inv(after) && Evolves(before, after)
  {
    hide Base, Evolves, Retries, Fits, Effect;
    RetriesExcept(before, act);
    CallKeeps(before, act, after.now);
  }

  /** A run extended by a call that happened is a run. */
  lemma RunExtends(start: State, calls: seq<Call>, act: Act, after: State)
    requires CanRun(start, calls) && Does(Run(start, calls), act, after)
    ensures CanRun(start, calls + [Call(act, after.now)]) && Run(start, calls + [Call(act, after.now)]) == after
  {
    hide Fits, Effect;
    var longer := calls + [Call(act, after.now)];
    assert longer[..|longer| - 1] == calls;
  }

  lemma NothingHappens(before: State, after: State)
    requires Inv(before) && before.now <= after.now && after == before.(now := after.now)
    ensures Does(before, Idle, after) && Inv(after)
  {
    assert Does(before, Idle, after) by { hide Inv; }
    hide Inv, Does;
    DoesKeeps(before, Idle, after);
  }

  lemma CreateDeviceHappens(before: State, id: string, name: string, site: string, model: string, at: int, after: State)
    requires Inv(before) && before.now <= at <= after.now
    requires after == before.(now := after.now, db := AfterCreateDevice(before.db, id, name, site, model, at))
    ensures Does(before, Act.CreateDevice(id, name, site, model, at), after) && Inv(after)
  {
    assert Does(before, Act.CreateDevice(id, name, site, model, at), after) by { hide Inv, AfterCreateDevice; }
    hide Inv, Does, AfterCreateDevice;
    DoesKeeps(before, Act.CreateDevice(id, name, site, model, at), after);
  }

  lemma TransitionDeviceHappens(before: State, id: string, to: DeviceStatus, at: int, after: State)
    requires Inv(before) && before.now <= at <= after.now
    requires after == before.(now := after.now, db := AfterTransitionDevice(before.db, id, to, at))
    ensures Does(before, Act.TransitionDevice(id, to, at), after) && Inv(after)
  {
    assert Does(before, Act.TransitionDevice(id, to, at), after) by { hide Inv, AfterTransitionDevice; }
    hide Inv, Does, AfterTransitionDevice;
    DoesKeeps(before, Act.TransitionDevice(id, to, at), after);
  }

  lemma TouchDeviceHappens(before: State, id: string, seen: int, at: int, after: State)
    requires Inv(before) && before.now <= at <= after.now
    requires after == before.(now := after.now, db := AfterTouch(before.db, id, seen, at))
    ensures Does(before, Act.TouchDevice(id, seen, at), after) && Inv(after)
  {
    assert Does(before, Act.TouchDevice(id, seen, at), after) by { hide Inv, AfterTouch; }
    hide Inv, Does, AfterTouch;
    DoesKeeps(before, Act.TouchDevice(id, seen, at), after);
  }

  lemma TransitionStreamHappens(before: State, id: string, to: StreamStatus, at: int, after: State)
    requires Inv(before) && before.now <= at <= after.now
    requires after == before.(now := after.now, db := AfterTransitionStream(before.db, id, to, at))
    ensures Does(before, Act.TransitionStream(id, to, at), after) && Inv(after)
  {
    assert Does(before, Act.TransitionStream(id, to, at), after) by { hide Inv, AfterTransitionStream; }
    hide Inv, Does, AfterTransitionStream;
    DoesKeeps(before, Act.TransitionStream(id, to, at), after);
  }

  lemma CreatePolicyHappens(before: State, actor: string, p: PolicyInput, at: int, after: State)
    requires Inv(before) && before.now <= at <= after.now
    requires after == before.(now := after.now, db := AfterCreatePolicy(before.db, actor, p, at))
    ensures Does(before, Act.CreatePolicy(actor, p, at), after) && Inv(after)
  {
    assert Does(before, Act.CreatePolicy(actor, p, at), after) by { hide Inv, AfterCreatePolicy; }
    hide Inv, Does, AfterCreatePolicy;
    DoesKeeps(before, Act.CreatePolicy(actor, p, at), after);
  }

  lemma LockPolicyHappens(before: State, id: string, at: int, after: State)
    requires Inv(before) && before.now <= at <= after.now
    requires after == before.(now := after.now, db := AfterLock(before.db, id, at))
    ensures Does(before, Act.LockPolicy(id, at), after) && Inv(after)
  {
    assert Does(before, Act.LockPolicy(id, at), after) by { hide Inv, AfterLock; }
    hide Inv, Does, AfterLock;
    DoesKeeps(before, Act.LockPolicy(id, at), after);
  }

  lemma TransitionIncidentHappens(before: State, id: string, to: IncidentStatus, at: int, after: State)
    requires Inv(before) && before.now <= at <= after.now
    requires after == before.(now := after.now, db := AfterTransitionIncident(before.db, id, to, at))
    ensures Does(before, Act.TransitionIncident(id, to, at), after) && Inv(after)
  {
    assert Does(before, Act.TransitionIncident(id, to, at), after) by { hide Inv, AfterTransitionIncident; }
    hide Inv, Does, AfterTransitionIncident;
    DoesKeeps(before, Act.TransitionIncident(id, to, at), after);
  }

  lemma CancelActionHappens(before: State, id: string, at: int, after: State)
    requires Inv(before) && before.now <= at <= after.now
    requires after == before.(now := after.now, db := AfterCancel(before.db, id, at))
    ensures Does(before, Act.CancelAction(id, at), after) && Inv(after)
  {
    assert Does(before, Act.CancelAction(id, at), after) by { hide Inv, AfterCancel; }
    hide Inv, Does, AfterCancel;
    DoesKeeps(before, Act.CancelAction(id, at), after);
  }

  lemma CreateStreamHappens(before: State, act: Act, after: State)
    requires Inv(before) && act.CreateStream? && before.now <= act.at <= after.now
    requires after == before.(now := after.now, db := AfterCreateStream(before.db, act))
    ensures Does(before, act, after) && Inv(after)
  {
    assert Does(before, act, after) by { hide Inv, AfterCreateStream; }
    hide Inv, Does, AfterCreateStream;
    DoesKeeps(before, act, after);
  }

  lemma PublishPolicyHappens(before: State, id: string, scanned: int, found: Option<string>, at: int, after: State)
    requires Inv(before) && before.now <= scanned <= at <= after.now
    requires id in before.db.policies ==> before.db.MayBeActive(before.db.policies[id].deviceId, scanned, found)
    requires after == before.(now := after.now, db := AfterPublish(before.db, id, found, at))
    ensures Does(before, Act.PublishPolicy(id, scanned, found, at), after) && Inv(after)
  {
    var act := Act.PublishPolicy(id, scanned, found, at);
    assert Does(before, act, after) by { hide Inv, AfterPublish, Db.MayBeActive; }
    hide Inv, Does, AfterPublish, Db.MayBeActive;
    DoesKeeps(before, act, after);
  }

  lemma AddEvidenceHappens(before: State, id: string, input: EvidenceInput, at: int, attached: int, after: State)
    requires Inv(before) && before.now <= at <= attached <= after.now
    requires after == before.(now := after.now, db := AfterAddEvidence(before.db, id, input, at, attached))
    ensures Does(before, Act.AddEvidence(id, input, at, attached), after) && Inv(after)
  {
    var act := Act.AddEvidence(id, input, at, attached);
    assert Does(before, act, after) by { hide Inv, AfterAddEvidence; }
    hide Inv, Does, AfterAddEvidence;
    DoesKeeps(before, act, after);
  }

  lemma RollupEvidenceHappens(before: State, id: string, at: int, attached: int, after: State)
    requires Inv(before) && before.now <= at <= attached <= after.now
    requires after == AfterRollup(before, id, at, attached).(now := after.now)
    ensures Does(before, Act.RollupEvidence(id, at, attached), after) && Inv(after)
  {
    var act := Act.RollupEvidence(id, at, attached);
    assert Does(before, act, after) by { hide Inv, AfterRollup; }
    hide Inv, Does, AfterRollup;
    DoesKeeps(before, act, after);
  }

  lemma CreateActionHappens(before: State, input: ActionInput, at: int, attached: int, after: State)
    requires Inv(before) && before.now <= at <= attached <= after.now
    requires after == AfterCreateAction(before, input, at, attached).(now := after.now)
    ensures Does(before, Act.CreateAction(input, at, attached), after) && Inv(after)
  {
    var act := Act.CreateAction(input, at, attached);
    assert Does(before, act, after) by { hide Inv, AfterCreateAction; }
    hide Inv, Does, AfterCreateAction;
    DoesKeeps(before, act, after);
  }

  lemma ExecuteActionHappens(before: State, id: string, at: int, finished: int, after: State)
    requires Inv(before) && before.now <= at <= finished <= after.now
    requires after == AfterExecute(before, id, at, finished).(now := after.now)
    ensures Does(before, Act.ExecuteAction(id, at, finished), after) && Inv(after)
  {
    var act := Act.ExecuteAction(id, at, finished);
    assert Does(before, act, after) by { hide Inv, AfterExecute; }
    hide Inv, Does, AfterExecute;
    DoesKeeps(before, act, after);
  }

  lemma IngestTelemetryHappens(before: State, samples: seq<SampleInput>, at: int, touches: seq<Touch>, after: State)
    requires Inv(before) && before.now <= at <= after.now
    requires Vet(before.db, samples, at).Ok? ==> TouchesFit(touches, samples, at, after.now)
    requires after == AfterIngest(before, samples, at, touches).(now := after.now)
    ensures Does(before, Act.IngestTelemetry(samples, at, touches), after) && Inv(after)
  {
    var act := Act.IngestTelemetry(samples, at, touches);
    assert Does(before, act, after) by { hide Inv, AfterIngest, Vet, TouchesFit; }
    hide Inv, Does, AfterIngest, Vet, TouchesFit;
    DoesKeeps(before, act, after);
  }

  lemma EvaluateTelemetryHappens(before: State, act: Act, after: State)
    requires Inv(before) && act.EvaluateTelemetry? && EvaluationFits(before, act, after.now)
    requires after == AfterEvaluate(before, act).(now := after.now)
    ensures Does(before, act, after) && Inv(after)
  {
    assert Does(before, act, after) by {
      assert before.now <= after.now;
      hide Inv, AfterEvaluate, EvaluationFits;
    }
    hide Inv, Does, AfterEvaluate, EvaluationFits;
    DoesKeeps(before, act, after);
  }

  lemma ReceiveHappens(before: State, after: State)
    requires Inv(before) && before.jobs != [] && |before.inHand| < before.workers
    requires after == before.(jobs := before.jobs[1..], inHand := before.inHand + [before.jobs[0]])
    ensures Does(before, Receive, after) && Inv(after) && Evolves(before, after)
  {
    assert Does(before, Receive, after) by { hide Inv; }
    hide Inv, Does, Evolves;
    DoesKeeps(before, Receive, after);
  }

  // The handler's own effect, once its job has left the worker's hand.
  ghost predicate Handles(s: State, handler: Act, after: State) {
    match handler
    case EvaluateTelemetry(_, _, _, _, _, _) => EvaluationFits(s, handler, after.now) && after == AfterEvaluate(s, handler).(now := after.now)
    case ExecuteAction(id, at, finished) => s.now <= at <= finished <= after.now && after == AfterExecute(s, id, at, finished).(now := after.now)
    case RollupEvidence(id, at, attached) => s.now <= at <= attached <= after.now && after == AfterRollup(s, id, at, attached).(now := after.now)
    case _ => false
  }

  lemma HandleHappens(before: State, slot: nat, handler: Act, after: State)
    requires Inv(before) && slot < |before.inHand| && Serves(handler, before.inHand[slot])
    requires Handles(before.(inHand := Without(before.inHand, slot)), handler, after)
    ensures Does(before, Handle(slot, handler), after) && Inv(after) && Evolves(before, after)
  {
    hide Inv, Does, Evolves, Handles;
    HandleDoes(before, slot, handler, after);
    DoesKeeps(before, Handle(slot, handler), after);
  }

  lemma HandleDoes(before: State, slot: nat, handler: Act, after: State)
    requires slot < |before.inHand| && Serves(handler, before.inHand[slot])
    requires Handles(before.(inHand := Without(before.inHand, slot)), handler, after)
    ensures Does(before, Handle(slot, handler), after)
  {
    hide Handles, Fits, Effect;
    HandlerFits(before.(inHand := Without(before.inHand, slot)), handler, after);
    HandleFits(before, slot, handler, after.now);
    HandleIs(before, slot, handler);
  }

  lemma HandleFits(s: State, slot: nat, handler: Act, end: int)
    requires s.now <= end && slot < |s.inHand| && Serves(handler, s.inHand[slot])
    requires Fits(s.(inHand := Without(s.inHand, slot)), handler, end)
    ensures Fits(s, Handle(slot, handler), end)
  {
    hide EvaluationFits, TouchesFit, Vet, Db.MayBeActive, Serves, Without;
  }

  lemma HandleIs(s: State, slot: nat, handler: Act)
    requires slot < |s.inHand|
    ensures Effect(s, Handle(slot, handler)) == Effect(s.(inHand := Without(s.inHand, slot)), handler)
  {
    hide AfterEvaluate, AfterExecute, AfterRollup, AfterIngest, AfterCreateAction;
  }

  lemma HandlerFits(s: State, handler: Act, after: State)
    requires Handles(s, handler, after)
    ensures s.now <= after.now && Fits(s, handler, after.now) && after == Effect(s, handler).(now := after.now)
  {
    assert handler.EvaluateTelemetry? ==> s.now <= after.now;
    hide AfterEvaluate, AfterExecute, AfterRollup, FindingsOf, PicksFit, Db.MayBeActive;
  }
}
