/**
 * What callers are promised, in terms of the stored records and the request alone: which requests
 * are granted, and what the granted ones make of a record.
 */
module Answers {
  import opened Basics
  import opened Domain
  import opened Calls

  // ----- Devices and streams -----

  // May a device in one status be moved to another? Any but a retired one may be retired or become
  // ready; only a ready one degrades.
  predicate DeviceMayGo(from: DeviceStatus, to: DeviceStatus) {
    (from.Pending? || from.Ready? || from.Degraded?) && (to.Ready? || to.Retired? || (from.Ready? && to.Degraded?))
  }

  predicate StreamMayGo(from: StreamStatus, to: StreamStatus) {
    (from.Active? || from.Paused?) && (to.Active? || to.Paused? || to.Disabled?)
  }

  // ----- Policies -----

  predicate RuleIsSound(rule: Rule) {
    && !Blank(rule.signal) && 0 < rule.severity < 6 && rule.duration > 0
    && !rule.comparator.OtherComparator?
    && (rule.comparator.Above? || rule.comparator.Below? ==> !(rule.lower == rule.upper == 0.0))
    && (rule.comparator == Outside ==> rule.lower < rule.upper)
    && (rule.comparator == Rate ==> rule.upper > 0.0)
  }

  predicate PolicyIsSound(p: PolicyInput) {
    && !Blank(p.id) && !Blank(p.name) && !Blank(p.deviceId) && p.version > 0 && p.maxRetries >= 0
    && |p.rules| > 0 && forall i | 0 <= i < |p.rules| :: RuleIsSound(p.rules[i])
  }

  // ----- Telemetry -----

  // Is a sample taken in, by itself?
  predicate IsAcceptable(input: SampleInput, streams: map<string, Stream>, devices: map<string, Device>) {
    && input.streamId in streams && streams[input.streamId].status == Active
    && streams[input.streamId].deviceId in devices
    && (devices[streams[input.streamId].deviceId].status.Ready? || devices[streams[input.streamId].deviceId].status.Degraded?)
    && input.observedAt != 0 && input.sequence > 0
  }

  function SampleFor(input: SampleInput, streams: map<string, Stream>, at: int): Sample
    requires input.streamId in streams
  {
    var stream := streams[input.streamId];
    Sample(input.streamId, stream.deviceId, stream.signal, input.value, if |input.quality| == 0 then "good" else input.quality,
           input.observedAt, at, input.sequence)
  }

  predicate AreAcceptable(inputs: seq<SampleInput>, streams: map<string, Stream>, devices: map<string, Device>) {
    |inputs| > 0 && forall i | 0 <= i < |inputs| :: IsAcceptable(inputs[i], streams, devices)
  }

  // One sample for each input follows the samples stored before, of which the last 10000 are kept.
  ghost predicate TakesIn(before: seq<Sample>, after: seq<Sample>, inputs: seq<SampleInput>, streams: map<string, Stream>, at: int) {
    exists batch: seq<Sample> ::
      && |batch| == |inputs|
      && (forall i | 0 <= i < |inputs| :: inputs[i].streamId in streams && batch[i] == SampleFor(inputs[i], streams, at))
      && after == if |before + batch| <= 10000 then before + batch else (before + batch)[|before + batch| - 10000..]
  }

  // The first input that is not taken in decides the error: a missing stream is told apart.
  ghost predicate IsRefusedFor(inputs: seq<SampleInput>, streams: map<string, Stream>, devices: map<string, Device>, i: nat, error: Error) {
    && i < |inputs| && !IsAcceptable(inputs[i], streams, devices)
    && (forall j | 0 <= j < i :: IsAcceptable(inputs[j], streams, devices))
    && error == if inputs[i].streamId in streams then Invalid else NotFound
  }

  // ----- Incidents -----

  // May an incident be given a status? Its own is granted too, but closing twice is not.
  predicate IncidentMayGo(i: Incident, to: IncidentStatus) {
    match to
    case Open => i.status == Open
    case Investigating => i.status != Closed
    case Contained => i.status.Open? || i.status.Investigating? || i.status.Contained?
    case Resolved => i.status != Closed
    case Closed => i.status == Resolved && |i.evidenceIds| > 0
    case OtherIncidentStatus(_) => false
  }

  function IncidentGone(i: Incident, to: IncidentStatus, at: int): Incident {
    if i.status == to then i
    else
      var moved := i.(status := to, version := i.version + 1, updatedAt := at);
      if to == Resolved then moved.(resolvedAt := Some(at)) else if to == Closed then moved.(closedAt := Some(at)) else moved
  }

  // An incident that takes an action or evidence in, unless it is closed.
  function Listing(i: Incident, actionIds: seq<string>, evidenceIds: seq<string>, at: int): Incident {
    if i.status == Closed then i
    else i.(actionIds := i.actionIds + actionIds, evidenceIds := i.evidenceIds + evidenceIds, version := i.version + 1, updatedAt := at)
  }

  // ----- Actions -----

  predicate IsActionRequest(input: ActionInput) {
    |input.id| > 0 && |input.incidentId| > 0 && |input.idempotency| > 0 && !input.kind.OtherActionType?
  }

  function ActionFor(input: ActionInput, deviceId: string, at: int): Action {
    Action(input.id, input.incidentId, deviceId, input.kind, Queued, 0, if input.maxAttempts > 1 then input.maxAttempts else 1,
           input.idempotency, input.reason, "", at, at, None)
  }

  // Does a request to execute find the action done, or runnable?
  predicate MayRun(a: Action) {
    a.status == Succeeded || ((a.status.Queued? || a.status.FailedAction?) && a.attempt < a.maxAttempts)
  }

  // The first attempt at a restart fails, and every other one succeeds.
  predicate FailsNow(a: Action) {
    a.kind == RestartAgent && a.attempt == 0
  }

  predicate IsRetried(a: Action) {
    FailsNow(a) && a.maxAttempts > 1
  }

  predicate IsRun(a: Action, done: Action, at: int) {
    done == a.(attempt := a.attempt + 1, status := if FailsNow(a) then FailedAction else Succeeded,
               result := done.result, updatedAt := at, finishedAt := Some(at))
  }
}
