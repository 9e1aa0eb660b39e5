/** The invariant of the whole system, and how the system may evolve from one state to a later one. */
module Invariant {
  import opened Basics
  import opened Domain
  import opened Store
  import opened Calls
  import opened IncidentFacts
  import opened Linkage

  // ----- The invariant -----

  ghost predicate DevicesOk(devices: map<string, Device>) {
    forall id | id in devices :: devices[id].id == id && devices[id].version >= 1 && !devices[id].status.OtherDeviceStatus?
  }

  ghost predicate StreamsOk(streams: map<string, Stream>, devices: map<string, Device>) {
    forall id | id in streams ::
      var s := streams[id];
      s.id == id && !Blank(id) && !Blank(s.deviceId) && !Blank(s.signal) && s.deviceId in devices && s.version >= 1
      && !s.status.OtherStreamStatus?
  }

  // Every retained sample carries the device and signal of its stream.
  ghost predicate SamplesOk(samples: seq<Sample>, streams: map<string, Stream>) {
    && |samples| <= RETAINED
    && forall x | x in samples :: SampleOk(x, streams)
  }

  ghost predicate SampleOk(x: Sample, streams: map<string, Stream>) {
    && x.streamId in streams && x.observedAt != 0 && x.sequence >= 1
    && x.deviceId == streams[x.streamId].deviceId && x.signal == streams[x.streamId].signal
  }

  ghost predicate PolicyOk(p: Policy) {
    && !Blank(p.deviceId) && p.version >= 1 && p.effectiveUntil == None && p.status != RetiredPolicy
    && forall i | 0 <= i < |p.rules| :: p.rules[i].Valid()
  }

  ghost predicate PoliciesOk(policies: map<string, Policy>) {
    forall id | id in policies :: policies[id].id == id && PolicyOk(policies[id])
  }

  // The only forms an action has between calls, by what its simulated effect does.
  ghost predicate AtRest(a: Action) {
    match a.status
    case Queued => true
    case Skipped => true
    case Running => false
    case Succeeded => a.attempt == if a.kind == RestartAgent then 2 else 1
    case FailedAction => a.kind == RestartAgent && a.attempt == 1
  }

  ghost predicate ActionsOk(actions: Actions, index: map<string, string>) {
    && IndexInverts(actions, index)
    && forall id | id in actions :: WithinBudget(actions[id]) && AtRest(actions[id]) && !actions[id].kind.OtherActionType?
  }

  ghost predicate EvidenceOk(evidence: EvidenceItems) {
    forall id | id in evidence :: evidence[id].id == id
  }

  ghost predicate DbOk(db: Db) {
    && DevicesOk(db.devices) && StreamsOk(db.streams, db.devices) && SamplesOk(db.samples, db.streams)
    && PoliciesOk(db.policies) && ActionsOk(db.actions, db.idempotency) && EvidenceOk(db.evidence)
  }

  ghost predicate CoreOk(s: State) {
    Core(s.db.anomalies, s.db.incidents, s.db.actions, s.db.evidence, s.now, s.sequence)
  }

  ghost predicate InFlight(jobs: seq<Work>, inHand: seq<Work>, work: Work) {
    work in jobs || work in inHand
  }

  // Evaluation jobs name a stored stream and its device.
  ghost predicate JobsOk(streams: map<string, Stream>, jobs: seq<Work>, inHand: seq<Work>) {
    forall work | InFlight(jobs, inHand, work) && work.Evaluation? :: JobOk(streams, work)
  }

  ghost predicate JobOk(streams: map<string, Stream>, work: Work)
    requires work.Evaluation?
  {
    work.streamId in streams && streams[work.streamId].deviceId == work.deviceId
  }

  ghost predicate Unfinished(a: Action) {
    a.status == Queued || a.CanRetry()
  }

  // Every unfinished action but the excepted one has its job in flight, unless the queue refused it.
  ghost predicate RetryQueued(actions: Actions, jobs: seq<Work>, inHand: seq<Work>, refused: set<Work>, except: Option<string>) {
    forall id | id in actions && Unfinished(actions[id]) && Some(id) != except ::
      InFlight(jobs, inHand, Response(id)) || Response(id) in refused
  }

  ghost predicate Base(s: State) {
    s.now > TEN_MINUTES && DbOk(s.db) && CoreOk(s) && JobsOk(s.db.streams, s.jobs, s.inHand)
  }

  ghost predicate Retries(s: State, except: Option<string>) {
    RetryQueued(s.db.actions, s.jobs, s.inHand, s.refused, except)
  }

  ghost predicate Inv(s: State) {
    Base(s) && Retries(s, None)
  }

  // ----- Evolution -----

  ghost predicate DeviceEvolves(d: Device, d': Device) {
    && d'.id == d.id && d.version <= d'.version && (d.status == Retired ==> d' == d)
    && (d'.status == Pending ==> d.status == Pending)
  }

  ghost predicate StreamEvolves(s: Stream, s': Stream) {
    && s'.id == s.id && s'.deviceId == s.deviceId && s'.signal == s.signal && s.version <= s'.version
    && (s.status == Disabled ==> s' == s)
  }

  predicate Released(p: Policy) {
    p.status == Published || p.status == Locked
  }

  ghost predicate PolicyEvolves(p: Policy, p': Policy) {
    && p'.id == p.id && p'.deviceId == p.deviceId && p'.version == p.version && p'.rules == p.rules
    && p'.effectiveUntil == p.effectiveUntil
    && (Released(p) ==> Released(p') && p'.effectiveFrom == p.effectiveFrom) && (p.status == Locked ==> p' == p)
  }

  // An incident only gains, and never returns to Open; once closed it does not change at all.
  ghost predicate IncidentEvolves(i: Incident, i': Incident) {
    && i'.id == i.id && i'.deviceId == i.deviceId && i'.openedAt == i.openedAt
    && i.anomalyIds <= i'.anomalyIds && i.actionIds <= i'.actionIds && i.evidenceIds <= i'.evidenceIds
    && i.severity <= i'.severity && i.version <= i'.version
    && (i.status == Closed ==> i' == i) && (i'.status == Open ==> i.status == Open)
  }

  ghost predicate ActionEvolves(a: Action, a': Action) {
    && SameRequest(a, a') && a.attempt <= a'.attempt
    && (a.status == Succeeded || a.status == Skipped ==> a' == a)
  }

  ghost predicate DevicesEvolve(a: map<string, Device>, b: map<string, Device>) {
    forall id | id in a :: id in b && DeviceEvolves(a[id], b[id])
  }

  ghost predicate StreamsEvolve(a: map<string, Stream>, b: map<string, Stream>) {
    forall id | id in a :: id in b && StreamEvolves(a[id], b[id])
  }

  ghost predicate PoliciesEvolve(a: map<string, Policy>, b: map<string, Policy>) {
    forall id | id in a :: id in b && PolicyEvolves(a[id], b[id])
  }

  ghost predicate AnomaliesFixed(a: Anomalies, b: Anomalies) {
    forall id | id in a :: id in b && b[id] == a[id]
  }

  ghost predicate IncidentsEvolve(a: Incidents, b: Incidents) {
    forall id | id in a :: id in b && IncidentEvolves(a[id], b[id])
  }

  ghost predicate ActionsEvolve(a: Actions, b: Actions) {
    forall id | id in a :: id in b && ActionEvolves(a[id], b[id])
  }

  ghost predicate DbEvolves(a: Db, b: Db) {
    && DevicesEvolve(a.devices, b.devices) && StreamsEvolve(a.streams, b.streams) && PoliciesEvolve(a.policies, b.policies)
    && AnomaliesFixed(a.anomalies, b.anomalies) && IncidentsEvolve(a.incidents, b.incidents)
    && ActionsEvolve(a.actions, b.actions) && EvidenceGrows(a.evidence, b.evidence)
  }

  ghost predicate Evolves(s: State, s': State) {
    s.now <= s'.now && s.sequence <= s'.sequence && s.refused <= s'.refused && DbEvolves(s.db, s'.db)
  }

  lemma NothingChanges(db: Db)
    ensures DbEvolves(db, db)
  {
  }

  lemma EvolvesIsTransitive(a: State, b: State, c: State)
    requires Evolves(a, b) && Evolves(b, c)
    ensures Evolves(a, c)
  {
    DbEvolvesIsTransitive(a.db, b.db, c.db);
  }

  lemma DbEvolvesIsTransitive(a: Db, b: Db, c: Db)
    requires DbEvolves(a, b) && DbEvolves(b, c)
    ensures DbEvolves(a, c)
  {
  }

  // ----- One lemma per part of the state: what a change of that part has to keep -----

  lemma Later(s: State, end: int, number: nat)
    requires Base(s) && s.now <= end && s.sequence <= number
    ensures var s' := s.(now := end, sequence := number); Base(s') && Evolves(s, s')
  {
    hide DbOk, JobsOk, DbEvolves, Core;
    NothingChanges(s.db);
    CoreLater(s.db.anomalies, s.db.incidents, s.db.actions, s.db.actions, s.db.evidence, s.db.evidence, s.now, end, s.sequence, number);
  }

  lemma Submitted(s: State, work: Work)
    requires Base(s) && (work.Evaluation? ==> JobOk(s.db.streams, work))
    ensures Base(Submit(s, work)) && Evolves(s, Submit(s, work))
    ensures forall w :: InFlight(s.jobs, s.inHand, w) ==> InFlight(Submit(s, work).jobs, s.inHand, w)
    ensures InFlight(Submit(s, work).jobs, s.inHand, work) || work in Submit(s, work).refused
    ensures forall x :: Retries(s, x) ==> Retries(Submit(s, work), x)
  {
    hide DbOk, DbEvolves, Core;
    NothingChanges(s.db);
  }

  lemma DeviceChange(s: State, d: Device)
    requires Base(s) && d.version >= 1 && !d.status.OtherDeviceStatus?
    requires d.id in s.db.devices ==> DeviceEvolves(s.db.devices[d.id], d)
    ensures var s' := s.(db := s.db.(devices := s.db.devices[d.id := d])); Base(s') && Evolves(s, s')
  {
    hide Core, JobsOk, StreamsEvolve, PoliciesEvolve, AnomaliesFixed, IncidentsEvolve, ActionsEvolve, EvidenceGrows,
         SamplesOk, PoliciesOk, ActionsOk, EvidenceOk;
    NothingChanges(s.db);
    var devices := s.db.devices[d.id := d];
    assert DevicesOk(devices) && StreamsOk(s.db.streams, devices) && DevicesEvolve(s.db.devices, devices);
  }

  lemma StreamChange(s: State, t: Stream)
    requires Base(s) && StreamsOk(map[t.id := t], s.db.devices)
    requires t.id in s.db.streams ==> StreamEvolves(s.db.streams[t.id], t)
    ensures var s' := s.(db := s.db.(streams := s.db.streams[t.id := t])); Base(s') && Evolves(s, s')
  {
    hide Core, DevicesEvolve, PoliciesEvolve, AnomaliesFixed, IncidentsEvolve, ActionsEvolve, EvidenceGrows,
         DevicesOk, PoliciesOk, ActionsOk, EvidenceOk;
    NothingChanges(s.db);
    var streams := s.db.streams[t.id := t];
    assert StreamsEvolve(s.db.streams, streams);
    assert StreamsOk(streams, s.db.devices) by { assert t.id in map[t.id := t]; }
    forall x | x in s.db.samples ensures SampleOk(x, streams) {
      assert SampleOk(x, s.db.streams);
    }
    forall w | InFlight(s.jobs, s.inHand, w) && w.Evaluation? ensures JobOk(streams, w) {
      assert JobOk(s.db.streams, w);
    }
  }

  lemma PolicyChange(s: State, p: Policy)
    requires Base(s) && PolicyOk(p)
    requires p.id in s.db.policies ==> PolicyEvolves(s.db.policies[p.id], p)
    ensures var s' := s.(db := s.db.(policies := s.db.policies[p.id := p])); Base(s') && Evolves(s, s')
  {
    hide Core, JobsOk, StreamsEvolve, DevicesEvolve, AnomaliesFixed, IncidentsEvolve, ActionsEvolve, EvidenceGrows,
         SamplesOk, DevicesOk, StreamsOk, ActionsOk, EvidenceOk, PolicyOk;
    NothingChanges(s.db);
    var policies := s.db.policies[p.id := p];
    assert PoliciesOk(policies) && PoliciesEvolve(s.db.policies, policies);
  }

  lemma SamplesChange(s: State, batch: seq<Sample>)
    requires Base(s) && forall x | x in batch :: SampleOk(x, s.db.streams)
    ensures var s' := s.(db := s.db.AddSamples(batch)); Base(s') && Evolves(s, s')
  {
    hide Core, JobsOk, StreamsEvolve, DevicesEvolve, PoliciesEvolve, AnomaliesFixed, IncidentsEvolve, ActionsEvolve, EvidenceGrows,
         DevicesOk, StreamsOk, PoliciesOk, ActionsOk, EvidenceOk, SampleOk;
    NothingChanges(s.db);
    var all := s.db.samples + batch;
    forall x | x in Suffix(all, RETAINED) ensures SampleOk(x, s.db.streams) {
      assert x in all;
    }
  }

  lemma EvidenceChange(s: State, e: Evidence)
    requires Base(s) && e.id !in s.db.evidence
    ensures var s' := s.(db := s.db.(evidence := s.db.evidence[e.id := e])); Base(s') && Evolves(s, s')
  {
    hide Core, JobsOk, StreamsEvolve, DevicesEvolve, PoliciesEvolve, AnomaliesFixed, IncidentsEvolve, ActionsEvolve,
         DevicesOk, StreamsOk, PoliciesOk, ActionsOk, SamplesOk;
    NothingChanges(s.db);
    var evidence := s.db.evidence[e.id := e];
    assert EvidenceGrows(s.db.evidence, evidence) && EvidenceOk(evidence);
    SameActionsGrow(s.db.actions);
    CoreLater(s.db.anomalies, s.db.incidents, s.db.actions, s.db.actions, s.db.evidence, evidence, s.now, s.now, s.sequence, s.sequence);
  }

  lemma SameActionsGrow(actions: Actions)
    ensures ActionsGrow(actions, actions)
  {
  }

  // A change to one incident that leaves its anomalies alone.
  lemma IncidentChange(s: State, i: Incident)
    requires Base(s) && i.id in s.db.incidents && IncidentEvolves(s.db.incidents[i.id], i)
    requires i.anomalyIds == s.db.incidents[i.id].anomalyIds
    requires Good(s.db.anomalies, s.db.actions, s.db.evidence, s.now, i)
    ensures var s' := s.(db := s.db.(incidents := s.db.incidents[i.id := i])); Base(s') && Evolves(s, s')
  {
    hide Core, Good, JobsOk, StreamsEvolve, DevicesEvolve, PoliciesEvolve, AnomaliesFixed, ActionsEvolve, EvidenceGrows,
         DevicesOk, StreamsOk, PoliciesOk, ActionsOk, SamplesOk, EvidenceOk;
    NothingChanges(s.db);
    assert IncidentsEvolve(s.db.incidents, s.db.incidents[i.id := i]);
    CoreAfterUpdate(s.db.anomalies, s.db.incidents, s.db.actions, s.db.evidence, s.now, s.sequence, i.id, i);
  }

  lemma ActionChange(s: State, a: Action, index: map<string, string>)
    requires Base(s)
    requires a.id in s.db.actions ==> ActionEvolves(s.db.actions[a.id], a)
    requires ActionsOk(s.db.actions[a.id := a], index)
    ensures var s' := s.(db := s.db.(actions := s.db.actions[a.id := a], idempotency := index));
            && Base(s') && Evolves(s, s')
            && forall x :: Retries(s, x) && (x == None || x == Some(a.id)) ==> Retries(s', Some(a.id))
  {
    hide Core, JobsOk, StreamsEvolve, DevicesEvolve, PoliciesEvolve, AnomaliesFixed, IncidentsEvolve, EvidenceGrows,
         DevicesOk, StreamsOk, PoliciesOk, SamplesOk, EvidenceOk, ActionsOk;
    NothingChanges(s.db);
    var actions := s.db.actions[a.id := a];
    assert ActionsEvolve(s.db.actions, actions) && ActionsGrow(s.db.actions, actions);
    assert EvidenceGrows(s.db.evidence, s.db.evidence);
    CoreLater(s.db.anomalies, s.db.incidents, s.db.actions, actions, s.db.evidence, s.db.evidence, s.now, s.now, s.sequence, s.sequence);
  }
}
