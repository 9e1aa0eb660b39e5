/**
 * The records of the service. A record is a value: the store keeps and hands out copies, so a
 * method of the source that changes a record through a pointer is a function returning the
 * changed copy here.
 */
module Domain {
  import opened Basics

  // ----- Devices -----

  // A status is a string in the source, so a request may carry an unknown one.
  datatype DeviceStatus = Pending | Ready | Degraded | Retired | OtherDeviceStatus(text: string)

  datatype Device = Device(
    id: string, name: string, site: string, model: string, status: DeviceStatus,
    lastSeenAt: Option<int>, failureCount: int, version: int, createdAt: int, updatedAt: int)
  {
    predicate CanReceiveTelemetry() {
      status == Ready || status == Degraded
    }

    function Transition(to: DeviceStatus, now: int): Result<Device> {
      if to == status then Ok(this)
      else if DeviceEdge(status, to) then Ok(this.(status := to, version := version + 1, updatedAt := now))
      else Err(Invalid)
    }

    // The change TouchDevice makes.
    function Touch(seen: int, now: int): Result<Device> {
      if status == Retired then Err(Invalid)
      else Ok(this.(lastSeenAt := Some(seen), failureCount := 0, version := version + 1, updatedAt := now))
    }
  }

  predicate DeviceEdge(from: DeviceStatus, to: DeviceStatus) {
    match from
    case Pending => to == Ready || to == Retired
    case Ready => to == Degraded || to == Retired
    case Degraded => to == Ready || to == Retired
    case Retired => false
    case OtherDeviceStatus(_) => false
  }

  function NewDevice(id: string, name: string, site: string, model: string, now: int): Result<Device> {
    if Blank(id) || Blank(name) || Blank(site) || Blank(model) then Err(Invalid)
    else Ok(Device(id, TrimSpace(name), TrimSpace(site), TrimSpace(model), Pending, None, 0, 1, now, now))
  }

  // ----- Streams -----

  datatype StreamStatus = Active | Paused | Disabled | OtherStreamStatus(text: string)

  datatype Stream = Stream(
    id: string, deviceId: string, name: string, signal: string, unit: string, samplePeriod: int,
    status: StreamStatus, version: int, createdAt: int, updatedAt: int)
  {
    predicate AcceptsSamples() {
      status == Active
    }

    function Transition(to: StreamStatus, now: int): Result<Stream> {
      if to == status then Ok(this)
      else if status == Disabled || to.OtherStreamStatus? then Err(Invalid)
      else Ok(this.(status := to, version := version + 1, updatedAt := now))
    }
  }

  function NewStream(id: string, deviceId: string, name: string, signal: string, unit: string, period: int, now: int): Result<Stream> {
    if Blank(id) || Blank(deviceId) || Blank(name) || Blank(signal) || period <= 0 then Err(Invalid)
    else Ok(Stream(id, deviceId, TrimSpace(name), TrimSpace(signal), TrimSpace(unit), period, Active, 1, now, now))
  }

  // ----- Policies -----

  datatype Comparator = Above | Below | Outside | Rate | OtherComparator(text: string)

  datatype Rule = Rule(signal: string, comparator: Comparator, lower: real, upper: real, duration: int, severity: int) {
    predicate Valid() {
      && !Blank(signal) && 1 <= severity <= 5 && duration > 0
      && match comparator
         case Above => lower != 0.0 || upper != 0.0
         case Below => lower != 0.0 || upper != 0.0
         case Outside => lower < upper
         case Rate => upper > 0.0
         case OtherComparator(_) => false
    }
  }

  datatype PolicyStatus = Draft | Published | Locked | RetiredPolicy

  function PolicyStatusText(status: PolicyStatus): string {
    match status
    case Draft => "draft"
    case Published => "published"
    case Locked => "locked"
    case RetiredPolicy => "retired"
  }

  datatype Policy = Policy(
    id: string, name: string, deviceId: string, version: int, status: PolicyStatus,
    effectiveFrom: int, effectiveUntil: Option<int>, rules: seq<Rule>, maxRetries: int,
    createdBy: string, createdAt: int, updatedAt: int)
  {
    function Publish(now: int): Result<Policy> {
      if status != Draft then Err(Invalid)
      else Ok(this.(effectiveFrom := if effectiveFrom == 0 then now else effectiveFrom,
                    status := Published, updatedAt := now))
    }

    function Lock(now: int): Result<Policy> {
      if status != Published then Err(Invalid)
      else Ok(this.(status := Locked, updatedAt := now))
    }

    predicate ActiveAt(now: int) {
      && (status == Published || status == Locked)
      && effectiveFrom <= now
      && (effectiveUntil == None || now < effectiveUntil.value)
    }
  }

  function NewPolicy(id: string, name: string, deviceId: string, creator: string, version: int,
                     rules: seq<Rule>, maxRetries: int, from: int, now: int): Result<Policy>
  {
    if Blank(id) || Blank(name) || Blank(deviceId) || version < 1 || rules == [] then Err(Invalid)
    else if exists i | 0 <= i < |rules| :: !rules[i].Valid() then Err(Invalid)
    else if maxRetries < 0 then Err(Invalid)
    else Ok(Policy(id, TrimSpace(name), deviceId, version, Draft, from, None, rules, maxRetries, creator, now, now))
  }

  // ----- Samples and windows -----

  datatype Sample = Sample(
    streamId: string, deviceId: string, signal: string, value: real, quality: string,
    observedAt: int, receivedAt: int, sequence: int)

  function NewSample(streamId: string, deviceId: string, signal: string, quality: string,
                     value: real, observedAt: int, receivedAt: int, sequence: int): Result<Sample>
  {
    if Blank(streamId) || Blank(deviceId) || Blank(signal) then Err(Invalid)
    else if observedAt == 0 || receivedAt == 0 || sequence < 1 then Err(Invalid)
    else Ok(Sample(streamId, deviceId, signal, value, if quality == "" then "good" else quality,
                   observedAt, receivedAt, sequence))
  }

  datatype Window = Window(
    deviceId: string, streamId: string, signal: string, startedAt: int, endedAt: int,
    count: nat, min: real, max: real, average: real, lastValue: real, badSamples: nat)

  // ----- Anomalies -----

  datatype AnomalyStatus = AnomalyOpen | Acknowledged | AnomalyResolved

  // incidentId is "" until the anomaly has been linked to an incident.
  datatype Anomaly = Anomaly(
    id: string, deviceId: string, streamId: string, signal: string, policyId: string, ruleIndex: nat,
    severity: int, observed: real, window: Window, status: AnomalyStatus, incidentId: string,
    createdAt: int, updatedAt: int)

  // ----- Incidents -----

  datatype IncidentStatus = Open | Investigating | Contained | Resolved | Closed | OtherIncidentStatus(text: string)

  datatype Incident = Incident(
    id: string, deviceId: string, title: string, severity: int, status: IncidentStatus,
    anomalyIds: seq<string>, actionIds: seq<string>, evidenceIds: seq<string>,
    openedAt: int, updatedAt: int, resolvedAt: Option<int>, closedAt: Option<int>, version: int)
  {
    function AddAnomaly(anomalyId: string, anomalySeverity: int, now: int): Result<Incident> {
      if status == Closed then Err(Invalid)
      else if anomalyId in anomalyIds then Ok(this)
      else Ok(this.(anomalyIds := anomalyIds + [anomalyId],
                    severity := if anomalySeverity > severity then anomalySeverity else severity,
                    version := version + 1, updatedAt := now))
    }

    function Transition(to: IncidentStatus, now: int): Result<Incident> {
      if to == status then Ok(this)
      else if IncidentEdge(status, to) then
        Ok(this.(status := to, version := version + 1, updatedAt := now,
                 resolvedAt := if to == Resolved then Some(now) else resolvedAt,
                 closedAt := if to == Closed then Some(now) else closedAt))
      else Err(Invalid)
    }

    function AttachAction(actionId: string, now: int): Result<Incident> {
      if status == Closed then Err(Invalid)
      else Ok(this.(actionIds := AppendUnique(actionIds, actionId), version := version + 1, updatedAt := now))
    }

    function AttachEvidence(evidenceId: string, now: int): Result<Incident> {
      if status == Closed then Err(Invalid)
      else Ok(this.(evidenceIds := AppendUnique(evidenceIds, evidenceId), version := version + 1, updatedAt := now))
    }

    predicate ReadyToClose() {
      status == Resolved && |evidenceIds| > 0
    }
  }

  predicate IncidentEdge(from: IncidentStatus, to: IncidentStatus) {
    match from
    case Open => to == Investigating || to == Contained || to == Resolved
    case Investigating => to == Contained || to == Resolved
    case Contained => to == Investigating || to == Resolved
    case Resolved => to == Closed || to == Investigating
    case Closed => false
    case OtherIncidentStatus(_) => false
  }

  function NewIncident(id: string, deviceId: string, title: string, severity: int, anomalyId: string, now: int): Result<Incident> {
    if Blank(id) || Blank(deviceId) || Blank(title) || severity < 1 || severity > 5 then Err(Invalid)
    else Ok(Incident(id, deviceId, TrimSpace(title), severity, Open, [anomalyId], [], [], now, now, None, None, 1))
  }

  // ----- Actions -----

  datatype ActionType = Notify | Isolate | Throttle | CollectDiagnostics | RestartAgent | OtherActionType(text: string)

  datatype ActionStatus = Queued | Running | Succeeded | FailedAction | Skipped

  datatype Action = Action(
    id: string, incidentId: string, deviceId: string, kind: ActionType, status: ActionStatus,
    attempt: int, maxAttempts: int, idempotency: string, reason: string, result: string,
    createdAt: int, updatedAt: int, finishedAt: Option<int>)
  {
    function Start(now: int): Result<Action> {
      if status != Queued && status != FailedAction then Err(Invalid)
      else if attempt >= maxAttempts then Err(Invalid)
      else Ok(this.(attempt := attempt + 1, status := Running, updatedAt := now))
    }

    function Finish(success: bool, message: string, now: int): Action {
      this.(result := message, updatedAt := now, finishedAt := Some(now),
            status := if success then Succeeded else FailedAction)
    }

    predicate CanRetry() {
      status == FailedAction && attempt < maxAttempts
    }

    // The simulated effect of running the action: a first restart times out.
    function Simulate(): (bool, string) {
      match kind
      case Notify => (true, "notification delivered")
      case CollectDiagnostics => (true, "diagnostic collection requested")
      case Throttle => (true, "device telemetry rate reduced")
      case Isolate => (true, "device isolated from production traffic")
      case RestartAgent => if attempt == 1 then (false, "restart request timed out") else (true, "agent restarted")
      case OtherActionType(_) => (false, "unsupported action")
    }

    function Cancel(now: int): Result<Action> {
      if status != Queued then Err(Invalid)
      else Ok(this.(status := Skipped, result := "cancelled by operator", updatedAt := now))
    }
  }

  function NewAction(id: string, incidentId: string, deviceId: string, kind: ActionType, maxAttempts: int,
                     key: string, reason: string, now: int): Result<Action>
  {
    if id == "" || incidentId == "" || deviceId == "" || key == "" then Err(Invalid)
    else if kind.OtherActionType? then Err(Invalid)
    else Ok(Action(id, incidentId, deviceId, kind, Queued, 0, if maxAttempts < 1 then 1 else maxAttempts,
                   key, reason, "", now, now, None))
  }

  // ----- Evidence -----

  datatype EvidenceKind = TelemetryWindow | ActionResult | OperatorNote | DeviceSnapshot | OtherEvidenceKind(text: string)

  datatype Evidence = Evidence(
    id: string, incidentId: string, kind: EvidenceKind, title: string, body: string, source: string, createdAt: int)

  function NewEvidence(id: string, incidentId: string, kind: EvidenceKind, title: string, body: string, source: string, now: int): Result<Evidence> {
    if Blank(id) || Blank(incidentId) || Blank(title) || Blank(body) || kind.OtherEvidenceKind? then Err(Invalid)
    else Ok(Evidence(id, incidentId, kind, TrimSpace(title), body, TrimSpace(source), now))
  }
}
