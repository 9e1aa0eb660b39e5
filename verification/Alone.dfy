/**
 * The two views of the service agree: a client that no other client interrupts does, step by step,
 * what the call view says its call does, and submits the same job.
 */
module Alone {
  import opened Basics
  import opened Decimal
  import opened Domain
  import opened Store
  import opened Telemetry
  import opened Calls
  import opened Records
  import Releases
  import Versioned
  import Workers

  // What is left of the store when a client makes its remaining steps, one reading of the clock for each.
  function Finished(db: Db, stage: Option<Stage>, readings: seq<int>, c: Choice): Db
    decreases |readings|
  {
    if stage.None? || readings == [] then db
    else
      var (db', next) := Advanced(db, stage.value, readings[0], c);
      Finished(db', next, readings[1..], c)
  }

  function Done(db: Db, r: Request, readings: seq<int>, c: Choice): Db {
    var (db', stage) := Begun(db, r);
    Finished(db', stage, readings, c)
  }

  lemma OneStep(db: Db, stage: Stage, at: int, c: Choice)
    ensures Finished(db, Some(stage), [at], c) == Advanced(db, stage, at, c).0
  {
    hide Advanced;
  }

  lemma TwoSteps(db: Db, stage: Stage, first: int, second: int, c: Choice)
    ensures var (db1, next) := Advanced(db, stage, first, c);
            Finished(db, Some(stage), [first, second], c) == if next.None? then db1 else Advanced(db1, next.value, second, c).0
  {
    hide Advanced;
    var (db1, next) := Advanced(db, stage, first, c);
    assert [first, second][1..] == [second];
    if next.Some? {
      OneStep(db1, next.value, second, c);
    }
  }

  // ----- Incidents, evidence and actions -----

  /** Transitions and cancellations. */
  lemma ChangesAlone(db: Db, id: string, to: IncidentStatus, at: int, c: Choice)
    ensures Done(db, Move(id, to), [at], c) == AfterTransitionIncident(db, id, to, at)
    ensures Done(db, Cancel(id), [at], c) == AfterCancel(db, id, at)
  {
    hide Incident.Transition, Incident.ReadyToClose;
    if id in db.incidents {
      OneStep(db, Moving(db.incidents[id], to), at, c);
    }
    if id in db.actions && db.actions[id].status == Queued {
      OneStep(db, Cancelling(db.actions[id]), at, c);
    }
    hide Finished;
  }

  /** An execution: both updates of the action. */
  lemma ExecuteAlone(s: State, id: string, at: int, finished: int, c: Choice)
    ensures Done(s.db, Execute(id), [at, finished], c) == AfterExecute(s, id, at, finished).db
  {
    if id in s.db.actions && s.db.actions[id].status != Succeeded {
      TwoSteps(s.db, Starting(s.db.actions[id]), at, finished, c);
    }
    hide Finished, Action.Start, Action.Finish, Action.Simulate;
  }

  /** Its last step submits another attempt exactly when the call does. */
  lemma RetryAlone(s: State, id: string, at: int, finished: int)
    requires id in s.db.actions && s.db.actions[id].id == id && s.db.actions[id].Start(at).Ok?
    ensures var done := s.(db := AfterExecute(s, id, at, finished).db);
            AfterExecute(s, id, at, finished) == match Workers.Submission(Finishing(s.db.actions[id].Start(at).value), finished, None)
                                                 case None => done
                                                 case Some(work) => Submit(done, work)
  {
    hide Action.Simulate;
  }

  /** A new action, stored and then attached. */
  lemma RespondAlone(s: State, input: ActionInput, at: int, attached: int, c: Choice)
    ensures Done(s.db, Respond(input), [at, attached], c) == AfterCreateAction(s, input, at, attached).db
  {
    if input.incidentId in s.db.incidents {
      TwoSteps(s.db, Acting(s.db.incidents[input.incidentId], input), at, attached, c);
    }
    hide Finished, NewAction, Incident.AttachAction;
  }

  /** Its last step submits the job of the new action, as the call does. */
  lemma RespondSubmits(s: State, input: ActionInput, at: int, attached: int)
    requires input.id !in s.db.actions && input.id in AfterCreateAction(s, input, at, attached).db.actions
    ensures input.incidentId in s.db.incidents
    ensures var done := s.(db := AfterCreateAction(s, input, at, attached).db);
            var work := Workers.Submission(AttachingAction(s.db.incidents[input.incidentId], input.id), attached, None);
            work.Some? && AfterCreateAction(s, input, at, attached) == Submit(done, work.value)
  {
    hide Incident.AttachAction;
  }

  /** Evidence a caller adds, stored and then attached. */
  lemma GatherAlone(db: Db, id: string, item: EvidenceInput, at: int, attached: int, c: Choice)
    requires id in db.incidents ==> db.incidents[id].id == id
    ensures Done(db, Gather(id, item, false), [at, attached], c) == AfterAddEvidence(db, id, item, at, attached)
  {
    if id in db.incidents && db.incidents[id].status != Closed {
      TwoSteps(db, Gathering(db.incidents[id], item), at, attached, c);
    }
    hide Finished, NewEvidence, Incident.AttachEvidence;
  }

  /** A rollup: the same under the number it draws, and of closed incidents too. */
  lemma RollupAlone(s: State, id: string, item: EvidenceInput, at: int, attached: int, c: Choice)
    requires id in s.db.incidents ==>
               && s.db.incidents[id].id == id
               && item == EvidenceInput(NumberedId("evidence", s.sequence + 1), DeviceSnapshot, "Automatic incident snapshot", RollupBody(s.db.incidents[id]), "orbit-rollup")
    ensures Done(s.db, Gather(id, item, true), [at, attached], c) == AfterRollup(s, id, at, attached).db
  {
    hide NewEvidence, Incident.AttachEvidence, RollupBody, NumberedId;
    if id in s.db.incidents {
      TwoSteps(s.db, Gathering(s.db.incidents[id], item), at, attached, c);
    }
    hide Finished;
  }

  // ----- One turn of an evaluation -----

  // The client's scan and its next step: the incident it merges into or opens.
  lemma CorrelateAlone(s: State, a: Anomaly, p: Pick)
    requires p.live && (p.found.Some? ==> p.found.value in s.db.incidents)
    ensures var c := Choice(p.found, NumberedId("incident", s.sequence + 1));
            var (db1, told) := Advanced(s.db, Detected(a), p.scanned, c);
            && db1 == s.db && told.Some?
            && var (db2, next) := Advanced(s.db, told.value, p.stamped, c);
               var (s', incident) := Correlate(s, a, p);
               && s'.db == db2
               && (incident.Some? <==> next.Some?)
               && (p.found.Some? && incident.Some? ==> next == Some(Linking(a.(incidentId := s.db.incidents[p.found.value].id))))
               && (p.found.None? && incident.Some? ==> next == Some(Linking(a.(incidentId := incident.value.id))))
  {
    hide NewIncident, Incident.AddAnomaly, NumberedId, IncidentTitle;
  }

  lemma MergeKeepsId(i: Incident, a: Anomaly, at: int)
    ensures i.AddAnomaly(a.id, a.severity, at).Or(i).id == i.id
  {
  }

  // The job of a newly opened incident is the one the call submits.
  lemma OpeningSubmits(s: State, a: Anomaly, p: Pick)
    requires p.live && p.found.None? && Correlate(s, a, p).1.Some?
    ensures var c := Choice(None, NumberedId("incident", s.sequence + 1));
            var work := Workers.Submission(Opening(a), p.stamped, Advanced(s.db, Opening(a), p.stamped, c).1);
            work.Some? && Correlate(s, a, p).0 == Submit(s.(sequence := s.sequence + 1, db := Correlate(s, a, p).0.db), work.value)
  {
    hide NewIncident, NumberedId, IncidentTitle;
  }

  /** A turn: the anomaly is stored, the incident merged into or opened, and the anomaly linked. */
  lemma DetectAlone(s: State, src: Source, d: Detection, p: Pick)
    requires var a := AnomalyFor(s.sequence + 1, src, d, p); a.id !in s.db.anomalies && p.live
    requires p.found.Some? ==> p.found.value in s.db.incidents
    ensures var a := AnomalyFor(s.sequence + 1, src, d, p);
            Done(s.db, Detect(a), [p.scanned, p.stamped, p.stamped], Choice(p.found, NumberedId("incident", s.sequence + 2)))
            == AfterOnePick(s, src, d, p).db
  {
    hide NumberedId, Correlate, Advanced;
    var a := AnomalyFor(s.sequence + 1, src, d, p);
    var c := Choice(p.found, NumberedId("incident", s.sequence + 2));
    var s1 := s.(sequence := s.sequence + 1, now := p.stamped, db := s.db.(anomalies := s.db.anomalies[a.id := a]));
    CorrelateAlone(s1, a, p);
    var told := Advanced(s1.db, Detected(a), p.scanned, c).1.value;
    var readings := [p.scanned, p.stamped, p.stamped];
    assert readings[1..] == [p.stamped, p.stamped];
    assert Done(s.db, Detect(a), readings, c) == Finished(s1.db, Some(told), readings[1..], c);
    TwoSteps(s1.db, told, p.stamped, p.stamped, c);
    if p.found.Some? {
      MergedHasId(s1, a, p);
    }
    TurnIsLinked(s, src, d, p);
    hide AfterOnePick, Finished;
    var (s2, incident) := Correlate(s1, a, p);
    var (db2, next) := Advanced(s1.db, told, p.stamped, c);
    assert s2.db == db2;
    if incident.Some? {
      assert next == Some(Linking(a.(incidentId := incident.value.id)));
      LinkingIs(s2.db, a.(incidentId := incident.value.id), p.stamped, c);
      assert AfterOnePick(s, src, d, p).db == s2.db.UpdateAnomaly(a.(incidentId := incident.value.id)).Or(s2.db);
    } else {
      assert next == None;
      assert AfterOnePick(s, src, d, p).db == s2.db;
      assert Done(s.db, Detect(a), readings, c) == s2.db;
    }
  }

  lemma MergedHasId(s: State, a: Anomaly, p: Pick)
    requires p.live && p.found.Some? && p.found.value in s.db.incidents
    ensures Correlate(s, a, p).1.Some? && Correlate(s, a, p).1.value.id == s.db.incidents[p.found.value].id
  {
    MergeKeepsId(s.db.incidents[p.found.value], a, p.stamped);
    hide Incident.AddAnomaly;
  }

  lemma LinkingIs(db: Db, a: Anomaly, at: int, c: Choice)
    ensures Advanced(db, Linking(a), at, c).0 == db.UpdateAnomaly(a).Or(db)
  {
  }

  lemma TurnIsLinked(s: State, src: Source, d: Detection, p: Pick)
    requires AnomalyFor(s.sequence + 1, src, d, p).id !in s.db.anomalies
    ensures var a := AnomalyFor(s.sequence + 1, src, d, p);
            var s1 := s.(sequence := s.sequence + 1, now := p.stamped, db := s.db.(anomalies := s.db.anomalies[a.id := a]));
            var (s2, incident) := Correlate(s1, a, p);
            AfterOnePick(s, src, d, p).db == if incident == None then s2.db else s2.db.UpdateAnomaly(a.(incidentId := incident.value.id)).Or(s2.db)
  {
    hide Correlate, NumberedId;
  }

  // ----- Policies -----

  /** Publishing and locking. */
  lemma PoliciesAlone(db: Db, id: string, scanned: int, found: Option<string>, at: int)
    requires id in db.policies
    ensures AfterPublish(db, id, found, at)
            == match Releases.Scanned(db, db.policies[id], scanned, found)
               case None => db
               case Some(stage) =>
                 match Releases.Offered(stage, at)
                 case Err(_) => db
                 case Ok(p) => db.UpdatePolicy(p, p.version).Or(db)
    ensures AfterLock(db, id, at)
            == match Releases.Offered(Releases.Locking(db.policies[id]), at)
               case Err(_) => db
               case Ok(p) => db.UpdatePolicy(p, p.version).Or(db)
  {
    hide Policy.Publish, Policy.Lock;
  }

  // ----- Devices and streams -----

  // The store after a client reads a record and writes it back at once.
  function Written(db: Db, key: Versioned.Key, op: Versioned.Op, at: int): Db {
    Versioned.Next(Versioned.Next(Versioned.World(db, map[]), Versioned.Read(0, key, op)), Versioned.Write(0, at)).db
  }

  /** Transitions and touches. */
  lemma VersionedAlone(db: Db, id: string, device: DeviceStatus, stream: StreamStatus, seen: int, at: int)
    ensures Written(db, Versioned.DeviceKey(id), Versioned.MoveDevice(device), at) == AfterTransitionDevice(db, id, device, at)
    ensures Written(db, Versioned.DeviceKey(id), Versioned.Touch(seen), at) == AfterTouch(db, id, seen, at)
    ensures Written(db, Versioned.StreamKey(id), Versioned.MoveStream(stream), at) == AfterTransitionStream(db, id, stream, at)
  {
    WrittenIs(db, Versioned.DeviceKey(id), Versioned.MoveDevice(device), at);
    WrittenIs(db, Versioned.DeviceKey(id), Versioned.Touch(seen), at);
    WrittenIs(db, Versioned.StreamKey(id), Versioned.MoveStream(stream), at);
    hide Written, Device.Transition, Device.Touch, Stream.Transition, Db.UpdateDevice, Db.UpdateStream;
  }

  lemma WrittenIs(db: Db, key: Versioned.Key, op: Versioned.Op, at: int)
    ensures Written(db, key, op, at)
            == match Versioned.Stored(db, key)
               case None => db
               case Some(r) =>
                 match Versioned.Change(r, op, at)
                 case Err(_) => db
                 case Ok(r') => Versioned.Update(db, r', r'.Version() - 1).Or(db)
  {
    hide Versioned.Change, Versioned.Update, Versioned.Stored;
  }
}
