/**
 * Clients that work on incidents, anomalies, actions and evidence at the same time. Every
 * store operation is one step; between steps a client holds private copies. Updates of these
 * records check no version, so what survives is what each whole record carries with it.
 */
module Records {
  import opened Basics
  import opened Domain
  import opened Store
  import opened Calls
  import opened IncidentFacts
  import opened Linkage

  // ----- Clients -----

  // What a client will do next, with the copies it holds.
  datatype Stage =
    | Detected(anomaly: Anomaly)
    | Merging(anomaly: Anomaly, copy: Incident)
    | Opening(anomaly: Anomaly)
    | Linking(anomaly: Anomaly)
    | Moving(copy: Incident, to: IncidentStatus)
    | Acting(copy: Incident, request: ActionInput)
    | AttachingAction(copy: Incident, id: string)
    | Gathering(copy: Incident, item: EvidenceInput)
    | AttachingEvidence(copy: Incident, id: string)
    | Starting(action: Action)
    | Finishing(action: Action)
    | Cancelling(action: Action)

  // A call, as it begins: its first store operation. A snapshot is taken of closed incidents too.
  datatype Request =
    | Detect(anomaly: Anomaly)
    | Move(id: string, to: IncidentStatus)
    | Respond(request: ActionInput)
    | Gather(id: string, item: EvidenceInput, snapshot: bool)
    | Execute(id: string)
    | Cancel(id: string)

  function Begun(db: Db, r: Request): (Db, Option<Stage>) {
    match r
    case Detect(a) =>
      (match db.PutAnomaly(a)
       case Err(_) => (db, None)
       case Ok(db') => (db', Some(Detected(a))))
    case Move(id, to) => (db, if id in db.incidents then Some(Moving(db.incidents[id], to)) else None)
    case Respond(input) => (db, if input.incidentId in db.incidents then Some(Acting(db.incidents[input.incidentId], input)) else None)
    case Gather(id, item, snapshot) =>
      (db, if id in db.incidents && (snapshot || db.incidents[id].status != Closed) then Some(Gathering(db.incidents[id], item)) else None)
    case Execute(id) => (db, if id in db.actions && db.actions[id].status != Succeeded then Some(Starting(db.actions[id])) else None)
    case Cancel(id) => (db, if id in db.actions && db.actions[id].status == Queued then Some(Cancelling(db.actions[id])) else None)
  }

  // What is not the client's own: the answer of the map scan, and the identifier it was given,
  // which racing calls of nextID may give to several clients.
  datatype Choice = Choice(found: Option<string>, id: string)

  // The incident a stage offers to the store, if it gets that far.
  function Offered(stage: Stage, at: int): Option<Incident> {
    match stage
    case Merging(a, copy) => Some(copy.AddAnomaly(a.id, a.severity, at).Or(copy))
    case Moving(copy, to) =>
      if to == Closed && !copy.ReadyToClose() then None
      else
        (match copy.Transition(to, at)
         case Err(_) => None
         case Ok(i) => Some(i))
    case AttachingAction(copy, id) => Some(copy.AttachAction(id, at).Or(copy))
    case AttachingEvidence(copy, id) => Some(copy.AttachEvidence(id, at).Or(copy))
    case _ => None
  }

  function Advanced(db: Db, stage: Stage, at: int, c: Choice): (Db, Option<Stage>) {
    match stage
    case Detected(a) =>
      (db, Some(if c.found.Some? && c.found.value in db.incidents then Merging(a, db.incidents[c.found.value]) else Opening(a)))
    case Merging(a, copy) => (Write(db, stage, at), Some(Linking(a.(incidentId := copy.id))))
    case Opening(a) =>
      (match NewIncident(c.id, a.deviceId, IncidentTitle(a.signal), a.severity, a.id, at)
       case Err(_) => (db, None)
       case Ok(i) =>
         match db.PutIncident(i)
         case Err(_) => (db, None)
         case Ok(db') => (db', Some(Linking(a.(incidentId := i.id)))))
    case Linking(a) => (db.UpdateAnomaly(a).Or(db), None)
    case Moving(_, _) => (Write(db, stage, at), None)
    case Acting(copy, input) =>
      (match NewAction(input.id, input.incidentId, copy.deviceId, input.kind, input.maxAttempts, input.idempotency, input.reason, at)
       case Err(_) => (db, None)
       case Ok(a) =>
         match db.PutAction(a)
         case Err(_) => (db, None)
         case Ok(db') => (db', Some(AttachingAction(copy, a.id))))
    case AttachingAction(_, _) => (Write(db, stage, at), None)
    case Gathering(copy, item) =>
      (match NewEvidence(item.id, copy.id, item.kind, item.title, item.body, item.source, at)
       case Err(_) => (db, None)
       case Ok(e) =>
         match db.PutEvidence(e)
         case Err(_) => (db, None)
         case Ok(db') => (db', Some(AttachingEvidence(copy, e.id))))
    case AttachingEvidence(_, _) => (Write(db, stage, at), None)
    case Starting(a) =>
      (match a.Start(at)
       case Err(_) => (db, None)
       case Ok(b) =>
         match db.UpdateAction(b)
         case Err(_) => (db, None)
         case Ok(db') => (db', Some(Finishing(b))))
    case Finishing(a) =>
      var (success, message) := a.Simulate();
      (db.UpdateAction(a.Finish(success, message, at)).Or(db), None)
    case Cancelling(a) =>
      (match a.Cancel(at)
       case Err(_) => (db, None)
       case Ok(b) => (db.UpdateAction(b).Or(db), None))
  }

  function Write(db: Db, stage: Stage, at: int): Db {
    match Offered(stage, at)
    case None => db
    case Some(i) => db.UpdateIncident(i).Or(db)
  }

  // ----- Interleavings -----

  // since is the time of the client's last step.
  datatype Busy = Busy(stage: Stage, since: int)

  datatype World = World(db: Db, clients: map<nat, Busy>, now: int)

  // at is the clock reading the client takes before a step, end the time of the step itself.
  // A context that ends is noticed after the first store operation only before the scan.
  datatype Event =
    | Begin(client: nat, request: Request, end: int)
    | Step(client: nat, at: int, choice: Choice, end: int)
    | Abandon(client: nat)

  ghost predicate Can(w: World, e: Event) {
    match e
    case Begin(c, r, end) => c !in w.clients && w.now <= end && (r.Detect? ==> r.anomaly.incidentId == "")
    case Step(c, at, choice, end) =>
      && c in w.clients && w.clients[c].since <= at <= end && w.now <= end
      && (w.clients[c].stage.Detected? ==>
            var a := w.clients[c].stage.anomaly; w.db.MayFind(a.deviceId, a.signal, at - TEN_MINUTES, choice.found))
    case Abandon(c) => c in w.clients && w.clients[c].stage.Detected?
  }

  function Placed(clients: map<nat, Busy>, c: nat, stage: Option<Stage>, now: int): map<nat, Busy> {
    match stage
    case None => clients - {c}
    case Some(st) => clients[c := Busy(st, now)]
  }

  function Next(w: World, e: Event): World {
    match e
    case Begin(c, r, end) => var (db, stage) := Begun(w.db, r); World(db, Placed(w.clients, c, stage, end), end)
    case Step(c, at, choice, end) =>
      if c !in w.clients then w
      else var (db, stage) := Advanced(w.db, w.clients[c].stage, at, choice); World(db, Placed(w.clients, c, stage, end), end)
    case Abandon(c) => w.(clients := w.clients - {c})
  }

  ghost predicate CanRun(events: seq<Event>) {
    events == [] || (CanRun(events[..|events| - 1]) && Can(Run(events[..|events| - 1]), events[|events| - 1]))
  }

  ghost function Run(events: seq<Event>): World {
    if events == [] then World(EMPTY, map[], 0) else Next(Run(events[..|events| - 1]), events[|events| - 1])
  }

  // ----- What every interleaving keeps -----

  ghost predicate IncidentsOk(db: Db, now: int) {
    forall i | i in db.incidents :: db.incidents[i].id == i && Good(db.anomalies, db.actions, db.evidence, now, db.incidents[i])
  }

  ghost predicate BudgetsOk(db: Db) {
    IndexInverts(db.actions, db.idempotency) && forall id | id in db.actions :: WithinBudget(db.actions[id])
  }

  ghost predicate StoreOk(db: Db, now: int) {
    IncidentsOk(db, now) && BudgetsOk(db)
  }

  ghost predicate AnomalyOk(db: Db, a: Anomaly) {
    a.id in db.anomalies && SameFinding(db.anomalies[a.id], a)
  }

  ghost predicate CopyOk(db: Db, since: int, copy: Incident) {
    copy.id in db.incidents && Good(db.anomalies, db.actions, db.evidence, since, copy)
  }

  ghost predicate ActionOk(db: Db, a: Action) {
    a.id in db.actions && SameRequest(db.actions[a.id], a) && WithinBudget(a)
  }

  ghost predicate StageOk(db: Db, since: int, stage: Stage) {
    match stage
    case Detected(a) => AnomalyOk(db, a)
    case Merging(a, copy) => AnomalyOk(db, a) && CopyOk(db, since, copy) && a.deviceId == copy.deviceId && a.signal == SignalOf(db.anomalies, copy)
    case Opening(a) => AnomalyOk(db, a)
    case Linking(a) => AnomalyOk(db, a)
    case Moving(copy, _) => CopyOk(db, since, copy)
    case Acting(copy, input) => CopyOk(db, since, copy) && input.incidentId == copy.id
    case AttachingAction(copy, id) => CopyOk(db, since, copy) && id in db.actions && db.actions[id].incidentId == copy.id
    case Gathering(copy, _) => CopyOk(db, since, copy)
    case AttachingEvidence(copy, id) => CopyOk(db, since, copy) && id in db.evidence && db.evidence[id].incidentId == copy.id
    case Starting(a) => ActionOk(db, a)
    case Finishing(a) => ActionOk(db, a) && a.status == Running
    case Cancelling(a) => ActionOk(db, a)
  }

  ghost predicate ClientsOk(db: Db, clients: map<nat, Busy>, now: int) {
    forall c | c in clients :: clients[c].since <= now && StageOk(db, clients[c].since, clients[c].stage)
  }

  ghost predicate Sound(w: World) {
    StoreOk(w.db, w.now) && ClientsOk(w.db, w.clients, w.now)
  }

  // ----- Growth -----

  ghost predicate Grows(db: Db, db': Db) {
    && AnomaliesGrow(db.anomalies, db'.anomalies) && ActionsGrow(db.actions, db'.actions)
    && EvidenceGrows(db.evidence, db'.evidence) && db.incidents.Keys <= db'.incidents.Keys
  }

  lemma Same(db: Db)
    ensures Grows(db, db)
  {
  }

  lemma StageIsStable(db: Db, db': Db, since: int, since': int, stage: Stage)
    requires Grows(db, db') && since <= since' && StageOk(db, since, stage)
    ensures StageOk(db', since', stage)
  {
    hide Good, SignalOf, WithinBudget;
    match stage
    case Merging(a, copy) => CopyIsStable(db, db', since, since', copy);
    case Moving(copy, _) => CopyIsStable(db, db', since, since', copy);
    case Acting(copy, _) => CopyIsStable(db, db', since, since', copy);
    case AttachingAction(copy, _) => CopyIsStable(db, db', since, since', copy);
    case Gathering(copy, _) => CopyIsStable(db, db', since, since', copy);
    case AttachingEvidence(copy, _) => CopyIsStable(db, db', since, since', copy);
    case _ =>
  }

  lemma CopyIsStable(db: Db, db': Db, since: int, since': int, copy: Incident)
    requires Grows(db, db') && since <= since' && CopyOk(db, since, copy)
    ensures CopyOk(db', since', copy) && SignalOf(db'.anomalies, copy) == SignalOf(db.anomalies, copy)
  {
    hide Good, SignalOf;
    GoodIsStable(db.anomalies, db'.anomalies, db.actions, db'.actions, db.evidence, db'.evidence, since, since', copy);
  }

  // Growth that leaves the incidents alone keeps their facts.
  lemma IncidentsAreStable(db: Db, db': Db, now: int, now': int)
    requires Grows(db, db') && now <= now' && IncidentsOk(db, now) && db'.incidents == db.incidents
    ensures IncidentsOk(db', now')
  {
    hide Good, Grows;
    forall i | i in db'.incidents ensures Good(db'.anomalies, db'.actions, db'.evidence, now', db'.incidents[i]) {
      assert CopyOk(db, now, db.incidents[i]);
      CopyIsStable(db, db', now, now', db.incidents[i]);
    }
  }

  lemma UnchangedIsOk(db: Db, now: int, end: int)
    requires StoreOk(db, now) && now <= end
    ensures Grows(db, db) && StoreOk(db, end)
  {
    hide Good;
    Same(db);
    IncidentsAreStable(db, db, now, end);
  }

  // A write of a whole incident that carries its facts.
  lemma WriteIsOk(db: Db, now: int, end: int, i: Incident)
    requires StoreOk(db, now) && now <= end && Good(db.anomalies, db.actions, db.evidence, end, i)
    ensures var db' := db.UpdateIncident(i).Or(db); Grows(db, db') && StoreOk(db', end)
  {
    UnchangedIsOk(db, now, end);
    hide Good, BudgetsOk, AnomaliesGrow, ActionsGrow, EvidenceGrows;
    if i.id in db.incidents {
      assert db.UpdateIncident(i).value == db.(incidents := db.incidents[i.id := i]);
      assert BudgetsOk(db) ==> BudgetsOk(db.(incidents := db.incidents[i.id := i])) by { IncidentsAside(db, db.incidents[i.id := i]); }
    }
  }

  lemma IncidentsAside(db: Db, incidents: Incidents)
    ensures BudgetsOk(db.(incidents := incidents)) <==> BudgetsOk(db)
  {
  }

  lemma PutIsOk(db: Db, now: int, end: int, i: Incident)
    requires StoreOk(db, now) && now <= end && Good(db.anomalies, db.actions, db.evidence, end, i)
    requires db.PutIncident(i).Ok?
    ensures var db' := db.PutIncident(i).value; Grows(db, db') && StoreOk(db', end)
  {
    hide Good;
    Same(db);
    IncidentsAreStable(db, db, now, end);
  }

  // ----- One lemma per step -----

  ghost predicate Succeeds(db: Db, result: (Db, Option<Stage>), end: int) {
    Grows(db, result.0) && StoreOk(result.0, end) && (result.1.Some? ==> StageOk(result.0, end, result.1.value))
  }

  lemma BegunIsOk(db: Db, now: int, end: int, r: Request)
    requires StoreOk(db, now) && now <= end
    ensures Succeeds(db, Begun(db, r), end)
  {
    hide Good;
    UnchangedIsOk(db, now, end);
    if r.Detect? && db.PutAnomaly(r.anomaly).Ok? {
      IncidentsAreStable(db, Begun(db, r).0, now, end);
    }
  }

  // The incident a stage offers carries its facts at the reading it was made with.
  lemma OfferedIsGood(db: Db, since: int, at: int, stage: Stage)
    requires StageOk(db, since, stage) && since <= at && Offered(stage, at).Some?
    ensures var i := Offered(stage, at).value; Good(db.anomalies, db.actions, db.evidence, at, i) && i.id == stage.copy.id
  {
    Same(db);
    CopyIsStable(db, db, since, at, stage.copy);
    hide Good, SignalOf;
    match stage
    case Merging(a, copy) => GoodAfterAddAnomaly(db.anomalies, db.actions, db.evidence, at, copy, a);
    case Moving(copy, to) => GoodAfterTransition(db.anomalies, db.actions, db.evidence, at, copy, to);
    case AttachingAction(copy, id) => GoodAfterAttachAction(db.anomalies, db.actions, db.evidence, at, copy, id);
    case AttachingEvidence(copy, id) => GoodAfterAttachEvidence(db.anomalies, db.actions, db.evidence, at, copy, id);
  }

  lemma WritingIsOk(db: Db, now: int, since: int, at: int, end: int, stage: Stage)
    requires StoreOk(db, now) && StageOk(db, since, stage) && since <= at <= end && now <= end
    ensures Grows(db, Write(db, stage, at)) && StoreOk(Write(db, stage, at), end)
  {
    hide Good, StageOk, StoreOk, Grows, Offered;
    UnchangedIsOk(db, now, end);
    if Offered(stage, at).Some? {
      OfferedIsGood(db, since, at, stage);
      var i := Offered(stage, at).value;
      GoodLater(db, at, end, i);
      WriteIsOk(db, now, end, i);
    }
  }

  lemma GoodLater(db: Db, at: int, end: int, i: Incident)
    requires at <= end && Good(db.anomalies, db.actions, db.evidence, at, i)
    ensures Good(db.anomalies, db.actions, db.evidence, end, i)
  {
    Same(db);
    hide Good;
    GoodIsStable(db.anomalies, db.anomalies, db.actions, db.actions, db.evidence, db.evidence, at, end, i);
  }

  lemma ScanIsOk(db: Db, now: int, at: int, end: int, a: Anomaly, c: Choice)
    requires StoreOk(db, now) && now <= end && AnomalyOk(db, a)
    requires db.MayFind(a.deviceId, a.signal, at - TEN_MINUTES, c.found)
    ensures Succeeds(db, Advanced(db, Detected(a), at, c), end)
  {
    UnchangedIsOk(db, now, end);
    if c.found.Some? {
      var i := db.incidents[c.found.value];
      assert CopyOk(db, end, i);
      SharedSignal(db, end, i, a.signal);
      hide Good, SignalOf, Grows;
    }
  }

  lemma SharedSignal(db: Db, now: int, i: Incident, signal: string)
    requires Good(db.anomalies, db.actions, db.evidence, now, i)
    requires exists k | 0 <= k < |i.anomalyIds| :: db.SignalOf(i.anomalyIds[k]) == signal
    ensures SignalOf(db.anomalies, i) == signal
  {
    var k :| 0 <= k < |i.anomalyIds| && db.SignalOf(i.anomalyIds[k]) == signal;
    assert i.anomalyIds[k] in i.anomalyIds && i.anomalyIds[0] in i.anomalyIds;
  }

  lemma OpeningIsOk(db: Db, now: int, at: int, end: int, a: Anomaly, c: Choice)
    requires StoreOk(db, now) && now <= end && at <= end && AnomalyOk(db, a)
    ensures Succeeds(db, Advanced(db, Opening(a), at, c), end)
  {
    hide Good, SignalOf, StoreOk, Grows, Blank;
    UnchangedIsOk(db, now, end);
    var made := NewIncident(c.id, a.deviceId, IncidentTitle(a.signal), a.severity, a.id, at);
    if made.Ok? && db.PutIncident(made.value).Ok? {
      GoodWhenNew(db.anomalies, db.actions, db.evidence, at, c.id, a, IncidentTitle(a.signal));
      GoodLater(db, at, end, made.value);
      PutIsOk(db, now, end, made.value);
    }
  }

  lemma LinkingIsOk(db: Db, now: int, at: int, end: int, a: Anomaly, c: Choice)
    requires StoreOk(db, now) && now <= end && AnomalyOk(db, a)
    ensures Succeeds(db, Advanced(db, Linking(a), at, c), end)
  {
    hide Good;
    IncidentsAreStable(db, Advanced(db, Linking(a), at, c).0, now, end);
  }

  lemma ActingIsOk(db: Db, now: int, since: int, at: int, end: int, stage: Stage, c: Choice)
    requires StoreOk(db, now) && StageOk(db, since, stage) && stage.Acting? && since <= end && now <= end
    ensures Succeeds(db, Advanced(db, stage, at, c), end)
  {
    hide Good;
    var input, copy := stage.request, stage.copy;
    UnchangedIsOk(db, now, end);
    var made := NewAction(input.id, input.incidentId, copy.deviceId, input.kind, input.maxAttempts, input.idempotency, input.reason, at);
    if made.Ok? && db.PutAction(made.value).Ok? {
      var db' := db.PutAction(made.value).value;
      PutActionIsOk(db, now, end, made.value);
      CopyIsStable(db, db', since, end, copy);
      hide Grows, StoreOk, Db.PutAction;
    }
  }

  lemma PutActionIsOk(db: Db, now: int, end: int, a: Action)
    requires StoreOk(db, now) && now <= end && WithinBudget(a) && db.PutAction(a).Ok?
    ensures var db' := db.PutAction(a).value;
            Grows(db, db') && StoreOk(db', end) && a.id in db'.actions && db'.actions[a.id] == a
  {
    hide Good, WithinBudget;
    var db' := db.PutAction(a).value;
    assert Grows(db, db');
    IncidentsAreStable(db, db', now, end);
  }

  lemma GatheringIsOk(db: Db, now: int, since: int, at: int, end: int, stage: Stage, c: Choice)
    requires StoreOk(db, now) && StageOk(db, since, stage) && stage.Gathering? && since <= end && now <= end
    ensures Succeeds(db, Advanced(db, stage, at, c), end)
  {
    hide Good, Blank, TrimSpace;
    var item, copy := stage.item, stage.copy;
    UnchangedIsOk(db, now, end);
    var made := NewEvidence(item.id, copy.id, item.kind, item.title, item.body, item.source, at);
    if made.Ok? && db.PutEvidence(made.value).Ok? {
      var db' := db.PutEvidence(made.value).value;
      IncidentsAreStable(db, db', now, end);
      CopyIsStable(db, db', since, end, copy);
    }
  }

  // A write of a whole action that carries its request and its budget.
  lemma ActionWriteIsOk(db: Db, now: int, end: int, a: Action)
    requires StoreOk(db, now) && now <= end && ActionOk(db, a)
    ensures db.UpdateAction(a).Ok?
    ensures var db' := db.UpdateAction(a).value; Grows(db, db') && StoreOk(db', end) && ActionOk(db', a)
  {
    hide Good, WithinBudget;
    var db' := db.UpdateAction(a).value;
    assert Grows(db, db');
    IncidentsAreStable(db, db', now, end);
  }

  lemma ActionStepIsOk(db: Db, now: int, since: int, at: int, end: int, stage: Stage, c: Choice)
    requires StoreOk(db, now) && StageOk(db, since, stage) && now <= end
    requires stage.Starting? || stage.Finishing? || stage.Cancelling?
    ensures Succeeds(db, Advanced(db, stage, at, c), end)
  {
    hide StoreOk, Grows, WithinBudget, Action.Start, Action.Finish, Action.Cancel, Action.Simulate, Db.UpdateAction;
    UnchangedIsOk(db, now, end);
    var a, outcome := stage.action, stage.action.Simulate();
    BudgetIsKept(a, at, outcome.0, outcome.1);
    match stage
    case Starting(_) =>
      if a.Start(at).Ok? {
        ActionWriteIsOk(db, now, end, a.Start(at).value);
      }
    case Finishing(_) => ActionWriteIsOk(db, now, end, a.Finish(outcome.0, outcome.1, at));
    case Cancelling(_) =>
      if a.Cancel(at).Ok? {
        ActionWriteIsOk(db, now, end, a.Cancel(at).value);
      }
  }

  lemma AdvancedIsOk(db: Db, now: int, since: int, at: int, end: int, stage: Stage, c: Choice)
    requires StoreOk(db, now) && StageOk(db, since, stage) && since <= at <= end && now <= end
    requires stage.Detected? ==> db.MayFind(stage.anomaly.deviceId, stage.anomaly.signal, at - TEN_MINUTES, c.found)
    ensures Succeeds(db, Advanced(db, stage, at, c), end)
  {
    hide Good, SignalOf, StoreOk, Db.MayFind, Grows, Offered, Succeeds, CopyOk, ActionOk;
    match stage
    case Detected(a) => ScanIsOk(db, now, at, end, a, c);
    case Merging(a, copy) => WritingStepIsOk(db, now, since, at, end, stage, c);
    case Opening(a) => OpeningIsOk(db, now, at, end, a, c);
    case Linking(a) => LinkingIsOk(db, now, at, end, a, c);
    case Moving(_, _) => WritingStepIsOk(db, now, since, at, end, stage, c);
    case Acting(_, _) => ActingIsOk(db, now, since, at, end, stage, c);
    case AttachingAction(_, _) => WritingStepIsOk(db, now, since, at, end, stage, c);
    case Gathering(_, _) => GatheringIsOk(db, now, since, at, end, stage, c);
    case AttachingEvidence(_, _) => WritingStepIsOk(db, now, since, at, end, stage, c);
    case _ => ActionStepIsOk(db, now, since, at, end, stage, c);
  }

  lemma WritingStepIsOk(db: Db, now: int, since: int, at: int, end: int, stage: Stage, c: Choice)
    requires StoreOk(db, now) && StageOk(db, since, stage) && since <= at <= end && now <= end
    requires stage.Merging? || stage.Moving? || stage.AttachingAction? || stage.AttachingEvidence?
    ensures Succeeds(db, Advanced(db, stage, at, c), end)
  {
    hide Good, SignalOf, StoreOk, Write, CopyOk, Grows, SameFinding;
    WritingIsOk(db, now, since, at, end, stage);
    if stage.Merging? {
      AnomalyIsStable(db, Write(db, stage, at), stage.anomaly);
    }
  }

  lemma AnomalyIsStable(db: Db, db': Db, a: Anomaly)
    requires Grows(db, db') && AnomalyOk(db, a)
    ensures forall i :: AnomalyOk(db', a.(incidentId := i))
  {
  }

  /** No step, by whichever client, breaks the facts of any stored or held record. */
  lemma StepIsSound(w: World, e: Event)
    requires Sound(w) && Can(w, e)
    ensures Sound(Next(w, e))
  {
    hide StoreOk, StageOk, Advanced, Begun, Grows, Db.MayFind;
    var w' := Next(w, e);
    if e.Begin? {
      BegunIsOk(w.db, w.now, e.end, e.request);
      OthersAreStable(w, w', e.client);
    } else if e.Step? {
      AdvancedIsOk(w.db, w.now, w.clients[e.client].since, e.at, e.end, w.clients[e.client].stage, e.choice);
      OthersAreStable(w, w', e.client);
    }
  }

  lemma OthersAreStable(w: World, w': World, c: nat)
    requires ClientsOk(w.db, w.clients, w.now) && Grows(w.db, w'.db) && w.now <= w'.now
    requires forall x | x in w'.clients && x != c :: x in w.clients && w'.clients[x] == w.clients[x]
    requires c in w'.clients ==> w'.clients[c].since <= w'.now && StageOk(w'.db, w'.clients[c].since, w'.clients[c].stage)
    ensures ClientsOk(w'.db, w'.clients, w'.now)
  {
    hide StageOk, Grows;
    forall x | x in w'.clients && x != c ensures StageOk(w'.db, w'.clients[x].since, w'.clients[x].stage) {
      StageIsStable(w.db, w'.db, w.clients[x].since, w.clients[x].since, w.clients[x].stage);
    }
  }

  lemma {:induction false} EveryRunIsSound(events: seq<Event>)
    requires CanRun(events)
    ensures Sound(Run(events))
  {
    if events != [] {
      hide Sound, Can, Next;
      EveryRunIsSound(events[..|events| - 1]);
      StepIsSound(Run(events[..|events| - 1]), events[|events| - 1]);
    }
  }

  ghost predicate StoredIncidentsCarry(w: World) {
    forall i | i in w.db.incidents :: Good(w.db.anomalies, w.db.actions, w.db.evidence, w.now, w.db.incidents[i])
  }

  ghost predicate HeldIncidentsCarry(w: World) {
    forall c | c in w.clients && HoldsIncident(w.clients[c].stage) ::
      Good(w.db.anomalies, w.db.actions, w.db.evidence, w.now, w.clients[c].stage.copy)
  }

  ghost predicate ActionsCarry(w: World) {
    && (forall a | a in w.db.actions :: WithinBudget(w.db.actions[a]))
    && (forall c | c in w.clients && HoldsAction(w.clients[c].stage) :: WithinBudget(w.clients[c].stage.action))
  }

  // The index names for each key exactly the stored action that carries it.
  ghost predicate IndexIsExact(db: Db) {
    forall key, id :: (key in db.idempotency && db.idempotency[key] == id) <==> (id in db.actions && db.actions[id].idempotency == key)
  }

  lemma StoredCarryFacts(w: World)
    requires Sound(w)
    ensures StoredIncidentsCarry(w)
  {
    hide Good, BudgetsOk, ClientsOk;
  }

  lemma CopiesCarryFacts(w: World)
    requires Sound(w)
    ensures HeldIncidentsCarry(w)
  {
    hide Good, StoreOk;
    forall c | c in w.clients && HoldsIncident(w.clients[c].stage)
      ensures Good(w.db.anomalies, w.db.actions, w.db.evidence, w.now, w.clients[c].stage.copy)
    {
      GoodLater(w.db, w.clients[c].since, w.now, w.clients[c].stage.copy);
    }
  }

  lemma ActionsCarryFacts(w: World)
    requires Sound(w)
    ensures ActionsCarry(w)
  {
    hide Good, IncidentsOk, WithinBudget, IndexInverts, SignalOf;
    forall c | c in w.clients && HoldsAction(w.clients[c].stage) ensures WithinBudget(w.clients[c].stage.action) {
      assert StageOk(w.db, w.clients[c].since, w.clients[c].stage);
    }
  }

  lemma IndexCarriesFacts(w: World)
    requires Sound(w)
    ensures IndexIsExact(w.db)
  {
    hide IncidentsOk, ClientsOk, WithinBudget, IndexInverts;
    IndexIsBijective(w.db.actions, w.db.idempotency);
  }

  /** Under every interleaving, each incident and action that is stored or held by a client carries
      its facts, and the index names for each key exactly the action that carries it. */
  lemma EveryCopyCarriesItsFacts(events: seq<Event>)
    requires CanRun(events)
    ensures StoredIncidentsCarry(Run(events)) && HeldIncidentsCarry(Run(events)) && ActionsCarry(Run(events)) && IndexIsExact(Run(events).db)
  {
    EveryRunIsSound(events);
    hide CanRun, Run, Sound, StoredIncidentsCarry, HeldIncidentsCarry, ActionsCarry, IndexIsExact;
    StoredCarryFacts(Run(events));
    CopiesCarryFacts(Run(events));
    ActionsCarryFacts(Run(events));
    IndexCarriesFacts(Run(events));
  }

  predicate HoldsIncident(stage: Stage) {
    stage.Merging? || stage.Moving? || stage.Acting? || stage.AttachingAction? || stage.Gathering? || stage.AttachingEvidence?
  }

  predicate HoldsAction(stage: Stage) {
    stage.Starting? || stage.Finishing? || stage.Cancelling?
  }
}
