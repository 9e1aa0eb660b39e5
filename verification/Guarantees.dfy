/** What the invariant and the evolution mean for a user of the service. */
module Guarantees {
  import opened Basics
  import opened Decimal
  import opened Domain
  import opened Store
  import opened Calls
  import opened IncidentFacts
  import opened Linkage
  import opened Invariant
  import opened Preservation
  import opened Evaluation
  import opened Runs

  ghost predicate Reachable(s: State) {
    exists s0, calls :: Initial(s0) && CanRun(s0, calls) && s == Run(s0, calls)
  }

  lemma ReachableIsOk(s: State)
    requires Reachable(s)
    ensures Inv(s)
  {
    var s0, calls :| Initial(s0) && CanRun(s0, calls) && s == Run(s0, calls);
    InitialIsOk(s0);
    RunKeeps(s0, calls);
  }

  // ----- Separation -----

  /** Two distinct open incidents that list anomalies of one device and signal were opened more
      than ten minutes apart, in every reachable state. */
  lemma OpenIncidentsAreSeparated(s: State, i: string, j: string, x: string, y: string)
    requires Reachable(s)
    requires i in s.db.incidents && j in s.db.incidents && i != j
    requires s.db.incidents[i].status != Closed && s.db.incidents[j].status != Closed
    requires s.db.incidents[i].deviceId == s.db.incidents[j].deviceId
    requires x in s.db.incidents[i].anomalyIds && y in s.db.incidents[j].anomalyIds
    requires s.db.SignalOf(x) == s.db.SignalOf(y)
    ensures FarApart(s.db.incidents[i], s.db.incidents[j])
  {
    ReachableIsOk(s);
    CoreSeparates(s.db, s.db.actions, s.db.evidence, s.now, s.sequence, i, j, x, y);
  }

  lemma CoreSeparates(db: Db, ac: Actions, ev: EvidenceItems, now: int, n: nat, i: string, j: string, x: string, y: string)
    requires Core(db.anomalies, db.incidents, ac, ev, now, n)
    requires i in db.incidents && j in db.incidents && i != j
    requires db.incidents[i].status != Closed && db.incidents[j].status != Closed
    requires db.incidents[i].deviceId == db.incidents[j].deviceId
    requires x in db.incidents[i].anomalyIds && y in db.incidents[j].anomalyIds && db.SignalOf(x) == db.SignalOf(y)
    ensures FarApart(db.incidents[i], db.incidents[j])
  {
    hide PeakSeverity, ListsOwn, Justified, PointBack, AnomaliesLinked, IdsIssued;
    var a, b := db.incidents[i], db.incidents[j];
    assert ListsFindings(db.anomalies, a) && ListsFindings(db.anomalies, b);
    assert a.anomalyIds[0] in a.anomalyIds && b.anomalyIds[0] in b.anomalyIds;
    assert Alike(db.anomalies, a, b);
  }

  /** An incident's first anomaly was found before it was opened, and every other one after that and
      no more than ten minutes later: an anomaly is not merged into an older incident. */
  lemma AnomaliesJoinInTime(s: State, i: string, k: nat)
    requires Reachable(s) && i in s.db.incidents && k < |s.db.incidents[i].anomalyIds|
    ensures var inc, x := s.db.incidents[i], s.db.incidents[i].anomalyIds[k];
            && x in s.db.anomalies
            && (k == 0 ==> s.db.anomalies[x].createdAt <= inc.openedAt)
            && (k > 0 ==> inc.openedAt <= s.db.anomalies[x].createdAt <= inc.openedAt + 600_000_000_000)
  {
    ReachableIsOk(s);
    hide DbOk, JobsOk, Retries, IncidentsGood, AnomaliesLinked, Separated, IdsIssued;
    assert JoinedInTime(s.db.anomalies, s.db.incidents[i]);
  }

  // ----- Partition -----

  // Does the call run every correlation it starts to the end?
  ghost predicate LinksItsAnomalies(act: Act)
    decreases act
  {
    match act
    case EvaluateTelemetry(_, deviceId, _, _, _, picks) => NoOrphanLeft(deviceId, picks)
    case Handle(_, handler) => LinksItsAnomalies(handler)
    case _ => true
  }

  lemma CallOrphans(s: State, act: Act, end: int)
    requires Base(s) && Fits(s, act, end)
    ensures Orphans(s.db.anomalies) <= Orphans(Effect(s, act).db.anomalies)
    ensures Orphans(Effect(s, act).db.anomalies) == Orphans(s.db.anomalies) <==> LinksItsAnomalies(act)
    decreases act
  {
    hide Base, Orphans, Evolves;
    if act.Handle? {
      TakenFromHand(s, act.slot);
      CallOrphans(s.(inHand := Without(s.inHand, act.slot)), act.handler, end);
    } else if act.EvaluateTelemetry? {
      EvaluateOrphans(s, act, end);
    } else if RecordsOnly(act) {
      RecordCallFrame(s, act);
    } else {
      OtherCallsLeaveAnomalies(s, act);
    }
  }

  lemma OtherCallsLeaveAnomalies(s: State, act: Act)
    requires Base(s) && !act.Handle? && !act.EvaluateTelemetry? && !RecordsOnly(act)
    ensures Effect(s, act).db.anomalies == s.db.anomalies
  {
    hide Base, Evolves, AfterTransitionIncident, AfterAddEvidence, AfterExecute, AfterIngest, AfterRollup, AfterCreateAction, Action.Cancel;
    match act
    case TransitionIncident(id, to, at) => TransitionIncidentFrame(s.db, id, to, at);
    case AddEvidence(id, evidence, at, attached) => AddEvidenceFrame(s.db, id, evidence, at, attached);
    case ExecuteAction(id, at, finished) => ExecuteFrame(s, id, at, finished);
    case IngestTelemetry(samples, at, touches) => IngestKeeps(s, samples, at, touches);
    case RollupEvidence(id, at, attached) => RollupFrame(s, id, at, attached);
    case CreateAction(action, at, attached) => CreateActionFrame(s, action, at, attached);
    case CancelAction(id, at) =>
    case Receive =>
  }

  lemma {:induction false} RunOrphans(s: State, calls: seq<Call>)
    requires Inv(s) && CanRun(s, calls)
    ensures Orphans(s.db.anomalies) <= Orphans(Run(s, calls).db.anomalies)
    ensures Orphans(Run(s, calls).db.anomalies) == Orphans(s.db.anomalies)
       <==> forall k | 0 <= k < |calls| :: LinksItsAnomalies(calls[k].act)
  {
    hide Inv, Orphans, Fits, Effect, LinksItsAnomalies;
    if calls != [] {
      var front := calls[..|calls| - 1];
      var call := calls[|calls| - 1];
      RunOrphans(s, front);
      RunKeeps(s, front);
      InvHasBase(Run(s, front));
      CallOrphans(Run(s, front), call.act, call.end);
      assert forall k | 0 <= k < |front| :: front[k] == calls[k];
    }
  }

  lemma InvHasBase(s: State)
    requires Inv(s)
    ensures Base(s)
  {
    hide Base;
  }

  /** After any run, each anomaly names exactly one incident that lists it exactly once, and each
      listed anomaly points back, if and only if no correlation of the run was cut short. */
  lemma AnomaliesArePartitioned(s: State, calls: seq<Call>)
    requires Initial(s) && CanRun(s, calls)
    ensures Partition(Run(s, calls).db.anomalies, Run(s, calls).db.incidents)
       <==> forall k | 0 <= k < |calls| :: LinksItsAnomalies(calls[k].act)
  {
    InitialIsOk(s);
    RunOrphans(s, calls);
    RunKeeps(s, calls);
    var s' := Run(s, calls);
    InvHasBase(s');
    hide Orphans, Partition, LinksItsAnomalies, Core, Inv;
    PartitionIffNoOrphans(s'.db.anomalies, s'.db.incidents, s'.db.actions, s'.db.evidence, s'.now, s'.sequence);
  }

  /** The evaluation of a job never meets a blank device: only a context that ends early leaves an orphan. */
  lemma JobsLinkUnlessCancelled(s: State, slot: nat, handler: Act, end: int)
    requires Reachable(s) && Fits(s, Handle(slot, handler), end) && handler.EvaluateTelemetry?
    ensures LinksItsAnomalies(Handle(slot, handler)) <==> forall k | 0 <= k < |handler.picks| :: handler.picks[k].live
  {
    ReachableIsOk(s);
    assert Serves(handler, s.inHand[slot]);
    JobDeviceIsNamed(s, slot);
  }

  lemma JobDeviceIsNamed(s: State, slot: nat)
    requires Inv(s) && slot < |s.inHand| && s.inHand[slot].Evaluation?
    ensures !Blank(s.inHand[slot].deviceId)
  {
    hide Core, DevicesOk, SamplesOk, PoliciesOk, ActionsOk, EvidenceOk, Blank;
    assert InFlight(s.jobs, s.inHand, s.inHand[slot]);
    assert JobOk(s.db.streams, s.inHand[slot]);
  }

  // ----- Incidents -----

  /** Every incident of a reachable state: its findings, severity, references and closing. */
  lemma IncidentsCarryTheirFacts(s: State, i: string)
    requires Reachable(s) && i in s.db.incidents
    ensures var inc := s.db.incidents[i];
            && inc.id == i
            && ListsFindings(s.db.anomalies, inc) && PeakSeverity(s.db.anomalies, inc)
            && ListsOwn(s.db.actions, s.db.evidence, inc) && Justified(inc, s.now)
  {
    ReachableIsOk(s);
    hide ListsFindings, PeakSeverity, ListsOwn, Justified, DbOk;
  }

  /** A closed incident is never changed again, by any later call. */
  lemma ClosedIsFrozen(s: State, calls: seq<Call>, i: string)
    requires Reachable(s) && CanRun(s, calls)
    requires i in s.db.incidents && s.db.incidents[i].status == Closed
    ensures i in Run(s, calls).db.incidents && Run(s, calls).db.incidents[i] == s.db.incidents[i]
  {
    ReachableIsOk(s);
    RunKeeps(s, calls);
    hide Inv;
  }

  /** Succeeded and cancelled actions are never changed again. */
  lemma FinishedActionsAreFrozen(s: State, calls: seq<Call>, id: string)
    requires Reachable(s) && CanRun(s, calls)
    requires id in s.db.actions && (s.db.actions[id].status == Succeeded || s.db.actions[id].status == Skipped)
    ensures id in Run(s, calls).db.actions && Run(s, calls).db.actions[id] == s.db.actions[id]
  {
    ReachableIsOk(s);
    RunKeeps(s, calls);
    hide Inv;
  }

  /** An action created on an incident is listed by it exactly when the incident was not closed. */
  lemma ActionListedUnlessClosed(s: State, input: ActionInput, at: int, attached: int)
    requires Reachable(s) && input.incidentId in s.db.incidents
    requires input.id !in s.db.actions && input.id in AfterCreateAction(s, input, at, attached).db.actions
    ensures var s' := AfterCreateAction(s, input, at, attached);
            input.incidentId in s'.db.incidents && (input.id in s'.db.incidents[input.incidentId].actionIds <==> s.db.incidents[input.incidentId].status != Closed)
  {
    IncidentsCarryTheirFacts(s, input.incidentId);
    AttachLists(s, input, at, attached) by {
      assert input.id !in s.db.incidents[input.incidentId].actionIds;
    }
  }

  lemma AttachLists(s: State, input: ActionInput, at: int, attached: int)
    requires input.incidentId in s.db.incidents && s.db.incidents[input.incidentId].id == input.incidentId
    requires input.id !in s.db.incidents[input.incidentId].actionIds && input.id !in s.db.actions
    requires input.id in AfterCreateAction(s, input, at, attached).db.actions
    ensures var s' := AfterCreateAction(s, input, at, attached);
            && input.incidentId in s'.db.incidents
            && (input.id in s'.db.incidents[input.incidentId].actionIds <==> s.db.incidents[input.incidentId].status != Closed)
  {
    SubmitKeepsRecords();
    hide Submit;
  }

  /** A rollup of a stored incident stores evidence exactly when the number it draws is not taken
      by evidence a caller added; what it stores is listed exactly when the incident is not closed. */
  lemma RollupStoresUnlessTaken(s: State, i: string, at: int, attached: int)
    requires Reachable(s) && i in s.db.incidents
    ensures var id, s' := NumberedId("evidence", s.sequence + 1), AfterRollup(s, i, at, attached);
            && (id in s.db.evidence ==> s'.db == s.db)
            && (id !in s.db.evidence ==>
                  && s'.db.evidence.Keys == s.db.evidence.Keys + {id} && s'.db.evidence[id].incidentId == i
                  && i in s'.db.incidents
                  && (id in s'.db.incidents[i].evidenceIds <==> s.db.incidents[i].status != Closed))
  {
    IncidentsCarryTheirFacts(s, i);
    StoredIsNamed(s, i);
    SnapshotIsMade(s, i, at);
    hide Reachable, NewEvidence, NumberedId, RollupBody, Incident.AttachEvidence;
    AttachedUnlessClosed(s.db, i, SnapshotOf(s, i, at), attached);
  }

  function SnapshotOf(s: State, i: string, at: int): Evidence
    requires i in s.db.incidents
  {
    Evidence(NumberedId("evidence", s.sequence + 1), i, DeviceSnapshot, TrimSpace("Automatic incident snapshot"),
             RollupBody(s.db.incidents[i]), TrimSpace("orbit-rollup"), at)
  }

  lemma SnapshotIsMade(s: State, i: string, at: int)
    requires i in s.db.incidents && !Blank(i)
    ensures NewEvidence(NumberedId("evidence", s.sequence + 1), i, DeviceSnapshot, "Automatic incident snapshot",
                        RollupBody(s.db.incidents[i]), "orbit-rollup", at) == Ok(SnapshotOf(s, i, at))
  {
    hide Digits, TrimSpace;
    assert NumberedId("evidence", s.sequence + 1)[0] == 'e' && RollupBody(s.db.incidents[i])[0] == 'i';
    NotBlank(NumberedId("evidence", s.sequence + 1), 0);
    NotBlank("Automatic incident snapshot", 0);
    NotBlank(RollupBody(s.db.incidents[i]), 0);
  }

  lemma IncidentIsNamed(s: State, i: string)
    requires Inv(s) && i in s.db.incidents
    ensures !Blank(i)
  {
    hide DbOk, JobsOk, Retries, IncidentsGood, AnomaliesLinked, Separated, TrimSpace;
    var k: nat :| 1 <= k <= s.sequence && i == NumberedId("incident", k);
    NotBlank(i, 0);
  }

  lemma StoredIsNamed(s: State, i: string)
    requires Reachable(s) && i in s.db.incidents
    ensures !Blank(i)
  {
    ReachableIsOk(s);
    hide Inv, Reachable, Blank;
    IncidentIsNamed(s, i);
  }

  lemma AttachedUnlessClosed(db: Db, i: string, e: Evidence, attached: int)
    requires i in db.incidents && db.incidents[i].id == i && (forall x | x in db.incidents[i].evidenceIds :: x in db.evidence)
    ensures var db' := AttachedEvidence(db, db.incidents[i], e, attached);
            && (e.id in db.evidence ==> db' == db)
            && (e.id !in db.evidence ==>
                  && db'.evidence == db.evidence[e.id := e] && i in db'.incidents
                  && (e.id in db'.incidents[i].evidenceIds <==> db.incidents[i].status != Closed))
  {
  }

  // ----- Idempotency -----

  /** In every reachable state a key belongs to at most one action, the one the index names. */
  lemma IndexIsTheInverse(s: State)
    requires Reachable(s)
    ensures forall key, id :: (key in s.db.idempotency && s.db.idempotency[key] == id) <==> (id in s.db.actions && s.db.actions[id].idempotency == key)
  {
    ReachableIsOk(s);
    KeysAreIndexed(s);
    hide Inv, Reachable, IndexInverts;
    IndexIsBijective(s.db.actions, s.db.idempotency);
  }

  lemma KeysAreIndexed(s: State)
    requires Inv(s)
    ensures IndexInverts(s.db.actions, s.db.idempotency)
  {
    hide Core, DevicesOk, StreamsOk, SamplesOk, PoliciesOk, EvidenceOk, IndexInverts;
  }

  // ----- Active policies -----

  // The version in force for a device at a time, or 0.
  ghost predicate InForce(policies: map<string, Policy>, deviceId: string, now: int, version: int) {
    && (forall id | id in policies && policies[id].deviceId == deviceId && policies[id].ActiveAt(now) :: policies[id].version <= version)
    && (version == 0 || exists id :: id in policies && policies[id].deviceId == deviceId && policies[id].ActiveAt(now) && policies[id].version == version)
  }

  /** ActivePolicy may answer with exactly the active policies of the greatest active version, and fails only without one. */
  lemma ActiveAnswerIsMaximal(s: State, deviceId: string, now: int)
    requires Reachable(s) && deviceId != ""
    ensures forall id :: s.db.MayBeActive(deviceId, now, Some(id)) <==>
              id in s.db.policies && s.db.policies[id].deviceId == deviceId && s.db.policies[id].ActiveAt(now) && InForce(s.db.policies, deviceId, now, s.db.policies[id].version)
    ensures s.db.MayBeActive(deviceId, now, None) <==> InForce(s.db.policies, deviceId, now, 0)
  {
    ReachableIsOk(s);
    VersionsArePositive(s);
    hide Inv, Reachable;
  }

  /** Over any run the version in force for a device never decreases. */
  lemma ActiveVersionNeverDecreases(s: State, calls: seq<Call>, deviceId: string, before: int, after: int)
    requires Reachable(s) && CanRun(s, calls)
    requires InForce(s.db.policies, deviceId, s.now, before)
    requires InForce(Run(s, calls).db.policies, deviceId, Run(s, calls).now, after)
    ensures before <= after
  {
    ReachableIsOk(s);
    RunKeeps(s, calls);
    var s' := Run(s, calls);
    VersionsArePositive(s');
    hide Base, Retries, DevicesEvolve, StreamsEvolve, IncidentsEvolve, ActionsEvolve, AnomaliesFixed, EvidenceGrows, Fits;
    if before != 0 {
      var id :| id in s.db.policies && s.db.policies[id].deviceId == deviceId && s.db.policies[id].ActiveAt(s.now) && s.db.policies[id].version == before;
      NothingExpires(s, id);
      assert PolicyEvolves(s.db.policies[id], s'.db.policies[id]);
    }
  }

  lemma VersionsArePositive(s: State)
    requires Inv(s)
    ensures forall id | id in s.db.policies :: s.db.policies[id].version >= 1
  {
    hide Core, DevicesOk, StreamsOk, SamplesOk, ActionsOk, EvidenceOk, Blank;
  }

  lemma NothingExpires(s: State, id: string)
    requires Inv(s) && id in s.db.policies
    ensures s.db.policies[id].effectiveUntil == None && s.db.policies[id].id == id
  {
    hide Core, DevicesOk, StreamsOk, SamplesOk, ActionsOk, EvidenceOk, Blank;
    assert PolicyOk(s.db.policies[id]);
  }

  // Another policy of the device, at least as new, starts to apply between the two readings of a publish.
  ghost predicate Overtakes(policies: map<string, Policy>, other: string, id: string, scanned: int, at: int)
    requires id in policies
  {
    && other in policies && other != id && policies[other].deviceId == policies[id].deviceId
    && Released(policies[other]) && scanned < policies[other].effectiveFrom <= at
    && policies[other].version >= policies[id].version
  }

  ghost predicate OnlyAnswer(db: Db, deviceId: string, now: int, id: string) {
    forall found :: db.MayBeActive(deviceId, now, found) ==> found == Some(id)
  }

  lemma {:induction false} Newest(policies: map<string, Policy>, among: set<string>) returns (best: string)
    requires among != {} && forall id | id in among :: id in policies
    ensures best in among && forall id | id in among :: policies[id].version <= policies[best].version
    decreases among
  {
    best :| best in among;
    if among != {best} {
      var other := Newest(policies, among - {best});
      best := if policies[best].version > policies[other].version then best else other;
    }
  }

  /** Publishing a policy that is in effect makes it the only possible answer at the time it is
      published, unless a policy at least as new takes effect between the call's two readings. */
  lemma PublishedIsAnswer(s: State, id: string, scanned: int, found: Option<string>, at: int)
    requires Reachable(s) && scanned <= at && id in s.db.policies
    requires s.db.MayBeActive(s.db.policies[id].deviceId, scanned, found)
    requires var p := s.db.policies[id];
             p.status == Draft && !Superseded(s.db, p, found) && p.effectiveFrom <= at
    ensures var db' := AfterPublish(s.db, id, found, at);
            OnlyAnswer(db', s.db.policies[id].deviceId, at, id)
            <==> !exists other :: Overtakes(s.db.policies, other, id, scanned, at)
  {
    ReachableIsOk(s);
    forall other | other in s.db.policies ensures s.db.policies[other].effectiveUntil == None && s.db.policies[other].id == other {
      NothingExpires(s, other);
    }
    DeviceIsNamed(s, id);
    hide Inv, Db.MayBeActive, OnlyAnswer;
    if other :| Overtakes(s.db.policies, other, id, scanned, at) {
      OvertakenIsNotOnly(s.db, id, scanned, found, at, other);
    } else {
      UnrivalledIsOnly(s.db, id, scanned, found, at);
    }
  }

  ghost predicate MayRelease(db: Db, id: string, scanned: int, found: Option<string>, at: int) {
    && scanned <= at && id in db.policies && db.policies[id].deviceId != ""
    && db.MayBeActive(db.policies[id].deviceId, scanned, found)
    && db.policies[id].status == Draft && !Superseded(db, db.policies[id], found) && db.policies[id].effectiveFrom <= at
    && forall other | other in db.policies :: db.policies[other].effectiveUntil == None && db.policies[other].id == other
  }

  lemma UnrivalledIsOnly(db: Db, id: string, scanned: int, found: Option<string>, at: int)
    requires MayRelease(db, id, scanned, found, at) && !exists other :: Overtakes(db.policies, other, id, scanned, at)
    ensures OnlyAnswer(AfterPublish(db, id, found, at), db.policies[id].deviceId, at, id)
  {
    var p, db' := db.policies[id], AfterPublish(db, id, found, at);
    assert db'.policies == db.policies[id := p.Publish(at).value];
    forall answer | db'.MayBeActive(p.deviceId, at, answer) ensures answer == Some(id) {
      assert answer.Some? by { NoneIsNoAnswer(db', p.deviceId, at, id); }
      if answer.value != id {
        assert !Overtakes(db.policies, answer.value, id, scanned, at);
        EarlierIsOlder(db, id, scanned, found, answer.value);
        OlderIsNoAnswer(db', p.deviceId, at, id, answer.value);
      }
    }
  }

  lemma OvertakenIsNotOnly(db: Db, id: string, scanned: int, found: Option<string>, at: int, rival: string)
    requires MayRelease(db, id, scanned, found, at) && Overtakes(db.policies, rival, id, scanned, at)
    ensures !OnlyAnswer(AfterPublish(db, id, found, at), db.policies[id].deviceId, at, id)
  {
    var p, db' := db.policies[id], AfterPublish(db, id, found, at);
    assert db'.policies == db.policies[id := p.Publish(at).value];
    var rivals := set other | other in db.policies && Overtakes(db.policies, other, id, scanned, at);
    assert rival in rivals;
    var best := Newest(db.policies, rivals);
    forall other | other in db'.policies && db'.Concerns(db'.policies[other], p.deviceId) && db'.policies[other].ActiveAt(at)
      ensures !ListedBefore(db'.policies[other], db'.policies[best])
    {
      EarlierIsOlder(db, id, scanned, found, other);
    }
    assert db'.MayBeActive(p.deviceId, at, Some(best));
  }

  lemma NoneIsNoAnswer(db: Db, deviceId: string, at: int, id: string)
    requires id in db.policies && db.policies[id].deviceId == deviceId && db.policies[id].ActiveAt(at)
    ensures !db.MayBeActive(deviceId, at, None)
  {
  }

  lemma OlderIsNoAnswer(db: Db, deviceId: string, at: int, id: string, other: string)
    requires id in db.policies && db.policies[id].deviceId == deviceId && db.policies[id].ActiveAt(at) && deviceId != ""
    ensures other in db.policies && db.policies[other].version < db.policies[id].version ==> !db.MayBeActive(deviceId, at, Some(other))
  {
  }

  lemma DeviceIsNamed(s: State, id: string)
    requires Inv(s) && id in s.db.policies
    ensures s.db.policies[id].deviceId != ""
  {
    hide Core, DevicesOk, StreamsOk, SamplesOk, ActionsOk, EvidenceOk;
    assert PolicyOk(s.db.policies[id]);
  }

  // A policy already active at the scan is older than the one being published.
  lemma EarlierIsOlder(db: Db, id: string, scanned: int, found: Option<string>, other: string)
    requires id in db.policies && !Superseded(db, db.policies[id], found)
    requires db.policies[id].deviceId != "" && db.MayBeActive(db.policies[id].deviceId, scanned, found)
    ensures other in db.policies && db.policies[other].deviceId == db.policies[id].deviceId && db.policies[other].ActiveAt(scanned) ==>
              db.policies[other].version < db.policies[id].version
  {
  }
}
