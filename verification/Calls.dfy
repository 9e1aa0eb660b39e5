/**
 * What every service call does to the whole system, as a function of the state before it.
 * A call carries what it draws from its surroundings: the clock readings it takes, the
 * answer of each map scan, and whether its context was still live where it is checked.
 */
module Calls {
  import opened Basics
  import opened Decimal
  import opened Domain
  import opened Store
  import opened Telemetry

  datatype Work =
    | Evaluation(streamId: string, deviceId: string)
    | Response(actionId: string)
    | EvidenceRollup(incidentId: string)

  // jobs is the queue's buffer, inHand what its workers have received and not yet handled.
  // refused is a history of the work the queue did not take.
  datatype State = State(
    db: Db, sequence: nat, now: int,
    jobs: seq<Work>, inHand: seq<Work>, capacity: nat, workers: nat, running: bool,
    refused: set<Work>)

  function Submit(s: State, work: Work): State {
    if s.running && |s.jobs| < s.capacity then s.(jobs := s.jobs + [work])
    else s.(refused := s.refused + {work})
  }

  function Without<T>(s: seq<T>, i: nat): seq<T>
    requires i < |s|
  {
    s[..i] + s[i + 1..]
  }

  // ----- Arguments of the calls -----

  datatype PolicyInput = PolicyInput(id: string, name: string, deviceId: string, version: int, from: int, rules: seq<Rule>, maxRetries: int)

  datatype SampleInput = SampleInput(streamId: string, value: real, quality: string, observedAt: int, sequence: int)

  datatype ActionInput = ActionInput(id: string, incidentId: string, kind: ActionType, maxAttempts: int, idempotency: string, reason: string)

  datatype EvidenceInput = EvidenceInput(id: string, kind: EvidenceKind, title: string, body: string, source: string)

  // One turn of the loop over the ingested streams: which stream, and its TouchDevice.
  datatype Touch = Touch(streamId: string, live: bool, at: int)

  // One turn of the loop over detections: the readings, the context check and the scan answer.
  datatype Pick = Pick(created: int, updated: int, live: bool, scanned: int, found: Option<string>, stamped: int)

  datatype Act =
    | Idle
    | CreateDevice(id: string, name: string, site: string, model: string, at: int)
    | TransitionDevice(id: string, deviceStatus: DeviceStatus, at: int)
    | TouchDevice(id: string, seen: int, at: int)
    | CreateStream(id: string, deviceId: string, name: string, signal: string, unit: string, period: int, at: int)
    | TransitionStream(id: string, streamStatus: StreamStatus, at: int)
    | CreatePolicy(actor: string, policy: PolicyInput, at: int)
    | PublishPolicy(id: string, scanned: int, found: Option<string>, at: int)
    | LockPolicy(id: string, at: int)
    | IngestTelemetry(samples: seq<SampleInput>, at: int, touches: seq<Touch>)
    | EvaluateTelemetry(streamId: string, deviceId: string, scanned: int, found: Option<string>, windowEnd: int, picks: seq<Pick>)
    | TransitionIncident(id: string, incidentStatus: IncidentStatus, at: int)
    | CreateAction(action: ActionInput, at: int, attached: int)
    | ExecuteAction(id: string, at: int, finished: int)
    | CancelAction(id: string, at: int)
    | AddEvidence(id: string, evidence: EvidenceInput, at: int, attached: int)
    | RollupEvidence(id: string, at: int, attached: int)
    | Receive
    | Handle(slot: nat, handler: Act)

  // ----- Devices and streams -----

  // A read-modify-write on one device: the store is given the version the copy was read at.
  function ModifyDevice(db: Db, d: Device, change: Result<Device>): Db {
    match change
    case Err(_) => db
    case Ok(d') => db.UpdateDevice(d', d'.version - 1).Or(db)
  }

  function AfterCreateDevice(db: Db, id: string, name: string, site: string, model: string, at: int): Db {
    match NewDevice(id, name, site, model, at)
    case Err(_) => db
    case Ok(d) => db.PutDevice(d).Or(db)
  }

  function AfterTouch(db: Db, id: string, seen: int, at: int): Db {
    if id !in db.devices then db else ModifyDevice(db, db.devices[id], db.devices[id].Touch(seen, at))
  }

  function AfterTransitionDevice(db: Db, id: string, to: DeviceStatus, at: int): Db {
    if id !in db.devices then db else ModifyDevice(db, db.devices[id], db.devices[id].Transition(to, at))
  }

  function AfterTransitionStream(db: Db, id: string, to: StreamStatus, at: int): Db {
    if id !in db.streams then db
    else
      match db.streams[id].Transition(to, at)
      case Err(_) => db
      case Ok(s) => db.UpdateStream(s, s.version - 1).Or(db)
  }

  function AfterCreateStream(db: Db, act: Act): Db
    requires act.CreateStream?
  {
    if act.deviceId !in db.devices then db
    else
      match NewStream(act.id, act.deviceId, act.name, act.signal, act.unit, act.period, act.at)
      case Err(_) => db
      case Ok(s) => db.PutStream(s).Or(db)
  }

  // ----- Policies -----

  function AfterCreatePolicy(db: Db, actor: string, p: PolicyInput, at: int): Db {
    if p.deviceId !in db.devices || db.devices[p.deviceId].status == Retired then db
    else
      match NewPolicy(p.id, p.name, p.deviceId, actor, p.version, p.rules, p.maxRetries, p.from, at)
      case Err(_) => db
      case Ok(policy) => db.PutPolicy(policy).Or(db)
  }

  // Is the policy's version taken by the active one found in the scan?
  predicate Superseded(db: Db, p: Policy, found: Option<string>) {
    found.Some? && found.value in db.policies && db.policies[found.value].version >= p.version
  }

  function AfterPublish(db: Db, id: string, found: Option<string>, at: int): Db {
    if id !in db.policies || Superseded(db, db.policies[id], found) then db
    else
      match db.policies[id].Publish(at)
      case Err(_) => db
      case Ok(p) => db.UpdatePolicy(p, p.version).Or(db)
  }

  function AfterLock(db: Db, id: string, at: int): Db {
    if id !in db.policies then db
    else
      match db.policies[id].Lock(at)
      case Err(_) => db
      case Ok(p) => db.UpdatePolicy(p, p.version).Or(db)
  }

  // ----- Ingestion -----

  function VetOne(db: Db, input: SampleInput, now: int): Result<Sample> {
    if input.streamId !in db.streams then Err(NotFound)
    else
      var stream := db.streams[input.streamId];
      if stream.deviceId !in db.devices then Err(NotFound)
      else if !stream.AcceptsSamples() || !db.devices[stream.deviceId].CanReceiveTelemetry() then Err(Invalid)
      else NewSample(stream.id, stream.deviceId, stream.signal, input.quality, input.value, input.observedAt, now, input.sequence)
  }

  // The samples of a batch, or the first input's error.
  function Vet(db: Db, inputs: seq<SampleInput>, now: int): Result<seq<Sample>> {
    if inputs == [] then Ok([])
    else
      match Vet(db, inputs[..|inputs| - 1], now)
      case Err(e) => Err(e)
      case Ok(front) =>
        match VetOne(db, inputs[|inputs| - 1], now)
        case Err(e) => Err(e)
        case Ok(sample) => Ok(front + [sample])
  }

  ghost function StreamsOf(inputs: seq<SampleInput>): set<string> {
    set i | 0 <= i < |inputs| :: inputs[i].streamId
  }

  function AfterOneTouch(s: State, t: Touch, now: int): State {
    if t.streamId !in s.db.streams then s
    else
      var stream := s.db.streams[t.streamId];
      var touched := if t.live then s.(db := AfterTouch(s.db, stream.deviceId, now, t.at)) else s;
      Submit(touched, Evaluation(stream.id, stream.deviceId))
  }

  function AfterTouches(s: State, touches: seq<Touch>, now: int): State {
    if touches == [] then s
    else AfterOneTouch(AfterTouches(s, touches[..|touches| - 1], now), touches[|touches| - 1], now)
  }

  function AfterIngest(s: State, inputs: seq<SampleInput>, at: int, touches: seq<Touch>): State {
    if inputs == [] then s
    else
      match Vet(s.db, inputs, at)
      case Err(_) => s
      case Ok(batch) => AfterTouches(s.(db := s.db.AddSamples(batch)), touches, at)
  }

  // ----- Evaluation -----

  // What every anomaly of one evaluation has in common.
  datatype Source = Source(streamId: string, deviceId: string, signal: string, policyId: string, window: Window)

  function AnomalyFor(n: nat, src: Source, d: Detection, p: Pick): Anomaly {
    Anomaly(NumberedId("anomaly", n), src.deviceId, src.streamId, src.signal, src.policyId, d.ruleIndex, d.severity,
            src.window.lastValue, src.window, AnomalyOpen, "", p.created, p.updated)
  }

  function IncidentTitle(signal: string): string {
    "Telemetry anomaly: " + signal
  }

  // correlateIncident: merge into the incident found, or open a new one.
  function Correlate(s: State, a: Anomaly, p: Pick): (State, Option<Incident>) {
    if !p.live then (s, None)
    else if p.found.Some? && p.found.value in s.db.incidents then
      var current := s.db.incidents[p.found.value];
      var inc := current.AddAnomaly(a.id, a.severity, p.stamped).Or(current);
      (s.(db := s.db.UpdateIncident(inc).Or(s.db)), Some(inc))
    else
      var s1 := s.(sequence := s.sequence + 1);
      match NewIncident(NumberedId("incident", s1.sequence), a.deviceId, IncidentTitle(a.signal), a.severity, a.id, p.stamped)
      case Err(_) => (s1, None)
      case Ok(inc) =>
        match s1.db.PutIncident(inc)
        case Err(_) => (s1, None)
        case Ok(db) => (Submit(s1.(db := db), EvidenceRollup(inc.id)), Some(inc))
  }

  function AfterOnePick(s: State, src: Source, d: Detection, p: Pick): State {
    var s1 := s.(sequence := s.sequence + 1, now := p.stamped);
    var a := AnomalyFor(s1.sequence, src, d, p);
    match s1.db.PutAnomaly(a)
    case Err(_) => s1
    case Ok(db) =>
      var (s2, incident) := Correlate(s1.(db := db), a, p);
      if incident == None then s2
      else s2.(db := s2.db.UpdateAnomaly(a.(incidentId := incident.value.id)).Or(s2.db))
  }

  function AfterPicks(s: State, src: Source, ds: seq<Detection>, picks: seq<Pick>): State
    requires |ds| == |picks|
  {
    if ds == [] then s
    else
      var last := |ds| - 1;
      AfterOnePick(AfterPicks(s, src, ds[..last], picks[..last]), src, ds[last], picks[last])
  }

  // What an evaluation finds before it starts creating anomalies.
  datatype Finding = Nothing | Findings(src: Source, detections: seq<Detection>)

  ghost function FindingsOf(db: Db, streamId: string, deviceId: string, found: Option<string>, windowEnd: int): Finding {
    if found == None || found.value !in db.policies || streamId !in db.streams then Nothing
    else
      var policy := db.policies[found.value];
      var start := windowEnd - FIVE_MINUTES;
      match WindowOf(Listed(db.samples, streamId, start, windowEnd, 500), start, windowEnd)
      case Err(_) => Nothing
      case Ok(w) => Findings(Source(streamId, deviceId, db.streams[streamId].signal, policy.id, w), Detections(w, policy.rules))
  }

  ghost function AfterEvaluate(s: State, act: Act): State
    requires act.EvaluateTelemetry?
  {
    match FindingsOf(s.db, act.streamId, act.deviceId, act.found, act.windowEnd)
    case Nothing => s
    case Findings(src, ds) => if |ds| == |act.picks| then AfterPicks(s.(now := act.windowEnd), src, ds, act.picks) else s
  }

  // ----- Incidents, actions, evidence -----

  function AfterTransitionIncident(db: Db, id: string, to: IncidentStatus, at: int): Db {
    if id !in db.incidents then db
    else if to == Closed && !db.incidents[id].ReadyToClose() then db
    else
      match db.incidents[id].Transition(to, at)
      case Err(_) => db
      case Ok(inc) => db.UpdateIncident(inc).Or(db)
  }

  function AfterCreateAction(s: State, input: ActionInput, at: int, attached: int): State {
    if input.incidentId !in s.db.incidents then s
    else
      var inc := s.db.incidents[input.incidentId];
      match NewAction(input.id, input.incidentId, inc.deviceId, input.kind, input.maxAttempts, input.idempotency, input.reason, at)
      case Err(_) => s
      case Ok(action) =>
        if s.db.PutAction(action).Err? then s else QueuedAction(s, inc, action, attached)
  }

  // A new action, attached to its incident unless that is closed, with its job submitted.
  function QueuedAction(s: State, inc: Incident, action: Action, attached: int): State {
    var db := s.db.PutAction(action).Or(s.db);
    Submit(s.(db := db.UpdateIncident(inc.AttachAction(action.id, attached).Or(inc)).Or(db)), Response(action.id))
  }

  function AfterExecute(s: State, id: string, at: int, finished: int): State {
    if id !in s.db.actions || s.db.actions[id].status == Succeeded then s
    else
      match s.db.actions[id].Start(at)
      case Err(_) => s
      case Ok(started) =>
        match s.db.UpdateAction(started)
        case Err(_) => s
        case Ok(db) =>
          var (success, message) := started.Simulate();
          var done := started.Finish(success, message, finished);
          match db.UpdateAction(done)
          case Err(_) => s.(db := db)
          case Ok(db') =>
            if !success && done.CanRetry() then Submit(s.(db := db'), Response(done.id)) else s.(db := db')
  }

  function AfterCancel(db: Db, id: string, at: int): Db {
    if id !in db.actions then db
    else
      match db.actions[id].Cancel(at)
      case Err(_) => db
      case Ok(a) => db.UpdateAction(a).Or(db)
  }

  function AfterAddEvidence(db: Db, id: string, input: EvidenceInput, at: int, attached: int): Db {
    if id !in db.incidents || db.incidents[id].status == Closed then db
    else
      match NewEvidence(input.id, id, input.kind, input.title, input.body, input.source, at)
      case Err(_) => db
      case Ok(e) => AttachedEvidence(db, db.incidents[id], e, attached)
  }

  // Put, then attach; the attachment is dropped silently when the incident is closed.
  function AttachedEvidence(db: Db, inc: Incident, e: Evidence, attached: int): Db {
    match db.PutEvidence(e)
    case Err(_) => db
    case Ok(db1) => db1.UpdateIncident(inc.AttachEvidence(e.id, attached).Or(inc)).Or(db1)
  }

  function RollupBody(inc: Incident): string {
    "incident=" + inc.id + "; anomalies=" + Digits(|inc.anomalyIds|) + "; actions=" + Digits(|inc.actionIds|)
  }

  function AfterRollup(s: State, id: string, at: int, attached: int): State {
    if id !in s.db.incidents then s
    else
      var inc := s.db.incidents[id];
      var s1 := s.(sequence := s.sequence + 1);
      match NewEvidence(NumberedId("evidence", s1.sequence), id, DeviceSnapshot, "Automatic incident snapshot",
                        RollupBody(inc), "orbit-rollup", at)
      case Err(_) => s1
      case Ok(e) => s1.(db := AttachedEvidence(s1.db, inc, e, attached))
  }

  // ----- Calls -----

  // Is this the call a worker makes for a job?
  predicate Serves(act: Act, work: Work) {
    match work
    case Evaluation(streamId, deviceId) => act.EvaluateTelemetry? && act.streamId == streamId && act.deviceId == deviceId
    case Response(actionId) => act.ExecuteAction? && act.id == actionId
    case EvidenceRollup(incidentId) => act.RollupEvidence? && act.id == incidentId
  }

  ghost function Effect(s: State, act: Act): State
    decreases act
  {
    match act
    case Idle => s
    case CreateDevice(id, name, site, model, at) => s.(db := AfterCreateDevice(s.db, id, name, site, model, at))
    case TransitionDevice(id, to, at) => s.(db := AfterTransitionDevice(s.db, id, to, at))
    case TouchDevice(id, seen, at) => s.(db := AfterTouch(s.db, id, seen, at))
    case CreateStream(_, _, _, _, _, _, _) => s.(db := AfterCreateStream(s.db, act))
    case TransitionStream(id, to, at) => s.(db := AfterTransitionStream(s.db, id, to, at))
    case CreatePolicy(actor, policy, at) => s.(db := AfterCreatePolicy(s.db, actor, policy, at))
    case PublishPolicy(id, _, found, at) => s.(db := AfterPublish(s.db, id, found, at))
    case LockPolicy(id, at) => s.(db := AfterLock(s.db, id, at))
    case IngestTelemetry(samples, at, touches) => AfterIngest(s, samples, at, touches)
    case EvaluateTelemetry(_, _, _, _, _, _) => AfterEvaluate(s, act)
    case TransitionIncident(id, to, at) => s.(db := AfterTransitionIncident(s.db, id, to, at))
    case CreateAction(action, at, attached) => AfterCreateAction(s, action, at, attached)
    case ExecuteAction(id, at, finished) => AfterExecute(s, id, at, finished)
    case CancelAction(id, at) => s.(db := AfterCancel(s.db, id, at))
    case AddEvidence(id, evidence, at, attached) => s.(db := AfterAddEvidence(s.db, id, evidence, at, attached))
    case RollupEvidence(id, at, attached) => AfterRollup(s, id, at, attached)
    case Receive => if s.jobs == [] then s else s.(jobs := s.jobs[1..], inHand := s.inHand + [s.jobs[0]])
    case Handle(slot, handler) =>
      if slot < |s.inHand| then Effect(s.(inHand := Without(s.inHand, slot)), handler) else s
  }

  // ----- Which calls can happen -----

  ghost predicate PickFits(s: State, src: Source, d: Detection, p: Pick) {
    && s.now <= p.created <= p.updated <= p.scanned <= p.stamped
    && var a := AnomalyFor(s.sequence + 1, src, d, p);
       (s.db.PutAnomaly(a).Ok? && p.live ==>
          s.db.PutAnomaly(a).value.MayFind(src.deviceId, src.signal, p.scanned - TEN_MINUTES, p.found))
  }

  ghost predicate PicksFit(s: State, src: Source, ds: seq<Detection>, picks: seq<Pick>)
    requires |ds| == |picks|
  {
    ds == [] ||
    var last := |ds| - 1;
    && PicksFit(s, src, ds[..last], picks[..last])
    && PickFits(AfterPicks(s, src, ds[..last], picks[..last]), src, ds[last], picks[last])
  }

  ghost predicate EvaluationFits(s: State, act: Act, end: int)
    requires act.EvaluateTelemetry?
  {
    && s.now <= act.scanned <= act.windowEnd <= end
    && s.db.MayBeActive(act.deviceId, act.scanned, act.found)
    && match FindingsOf(s.db, act.streamId, act.deviceId, act.found, act.windowEnd)
       case Nothing => act.picks == []
       case Findings(src, ds) =>
         && |ds| == |act.picks| && PicksFit(s.(now := act.windowEnd), src, ds, act.picks)
         && (act.picks != [] ==> act.picks[|act.picks| - 1].stamped <= end)
  }

  ghost predicate TouchesFit(touches: seq<Touch>, inputs: seq<SampleInput>, from: int, end: int) {
    && (forall i | 0 <= i < |touches| :: from <= touches[i].at <= end)
    && (forall i, j | 0 <= i < j < |touches| :: touches[i].at <= touches[j].at && touches[i].streamId != touches[j].streamId)
    && (forall id :: id in StreamsOf(inputs) <==> exists i | 0 <= i < |touches| :: touches[i].streamId == id)
  }

  // The readings lie between the last one and end in the order they are taken, and every
  // scan answer is one the scan may give.
  ghost predicate Fits(s: State, act: Act, end: int)
    decreases act
  {
    && s.now <= end
    && match act
       case Idle => true
       case CreateDevice(_, _, _, _, at) => s.now <= at <= end
       case TransitionDevice(_, _, at) => s.now <= at <= end
       case TouchDevice(_, _, at) => s.now <= at <= end
       case CreateStream(_, _, _, _, _, _, at) => s.now <= at <= end
       case TransitionStream(_, _, at) => s.now <= at <= end
       case CreatePolicy(_, _, at) => s.now <= at <= end
       case PublishPolicy(id, scanned, found, at) =>
         && s.now <= scanned <= at <= end
         && (id in s.db.policies ==> s.db.MayBeActive(s.db.policies[id].deviceId, scanned, found))
       case LockPolicy(_, at) => s.now <= at <= end
       case IngestTelemetry(samples, at, touches) => 
         s.now <= at <= end && (Vet(s.db, samples, at).Ok? ==> TouchesFit(touches, samples, at, end))
       case EvaluateTelemetry(_, _, _, _, _, _) => EvaluationFits(s, act, end)
       case TransitionIncident(_, _, at) => s.now <= at <= end
       case CreateAction(_, at, attached) => s.now <= at <= attached <= end
       case ExecuteAction(_, at, finished) => s.now <= at <= finished <= end
       case CancelAction(_, at) => s.now <= at <= end
       case AddEvidence(_, _, at, attached) => s.now <= at <= attached <= end
       case RollupEvidence(_, at, attached) => s.now <= at <= attached <= end
       case Receive => s.jobs != [] && |s.inHand| < s.workers
       case Handle(slot, handler) =>
         && slot < |s.inHand| && Serves(handler, s.inHand[slot])
         && Fits(s.(inHand := Without(s.inHand, slot)), handler, end)
  }

  // A call as it completed: what it did, and the clock when it returned.
  datatype Call = Call(act: Act, end: int)

  ghost function Apply(s: State, c: Call): State {
    Effect(s, c.act).(now := c.end)
  }

  // ----- Runs -----

  ghost predicate CanRun(s: State, calls: seq<Call>) {
    calls == [] ||
    var last := |calls| - 1;
    CanRun(s, calls[..last]) && Fits(Run(s, calls[..last]), calls[last].act, calls[last].end)
  }

  ghost function Run(s: State, calls: seq<Call>): State {
    if calls == [] then s else Apply(Run(s, calls[..|calls| - 1]), calls[|calls| - 1])
  }

  // A freshly started service. Its clock is past ten minutes after Go's zero time.
  ghost predicate Initial(s: State) {
    s.db == EMPTY && s.sequence == 0 && s.now > TEN_MINUTES && s.jobs == [] && s.inHand == [] && s.refused == {}
  }
}
