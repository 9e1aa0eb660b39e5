/**
 * The in-memory repository. Db is its contents as a value, with one function per operation;
 * class Memory holds the fields and every method is proved against the function of that name.
 */
module Store {
  import opened Basics
  import opened Domain

  const RETAINED := 10000

  datatype Db = Db(
    devices: map<string, Device>,
    streams: map<string, Stream>,
    policies: map<string, Policy>,
    samples: seq<Sample>,
    anomalies: map<string, Anomaly>,
    incidents: map<string, Incident>,
    actions: map<string, Action>,
    evidence: map<string, Evidence>,
    idempotency: map<string, string>)
  {
    function PutDevice(d: Device): Result<Db> {
      if d.id in devices then Err(Exists) else Ok(this.(devices := devices[d.id := d]))
    }

    function UpdateDevice(d: Device, expected: int): Result<Db> {
      if d.id !in devices then Err(NotFound)
      else if expected > 0 && devices[d.id].version != expected then Err(Conflict)
      else Ok(this.(devices := devices[d.id := d]))
    }

    function PutStream(s: Stream): Result<Db> {
      if s.id in streams then Err(Exists) else Ok(this.(streams := streams[s.id := s]))
    }

    function UpdateStream(s: Stream, expected: int): Result<Db> {
      if s.id !in streams then Err(NotFound)
      else if expected > 0 && streams[s.id].version != expected then Err(Conflict)
      else Ok(this.(streams := streams[s.id := s]))
    }

    function PutPolicy(p: Policy): Result<Db> {
      if p.id in policies then Err(Exists) else Ok(this.(policies := policies[p.id := p]))
    }

    function UpdatePolicy(p: Policy, expected: int): Result<Db> {
      if p.id !in policies then Err(NotFound)
      else if expected > 0 && policies[p.id].version != expected then Err(Conflict)
      else Ok(this.(policies := policies[p.id := p]))
    }

    function AddSamples(batch: seq<Sample>): Db {
      this.(samples := Suffix(samples + batch, RETAINED))
    }

    function PutAnomaly(a: Anomaly): Result<Db> {
      if a.id in anomalies then Err(Exists) else Ok(this.(anomalies := anomalies[a.id := a]))
    }

    function UpdateAnomaly(a: Anomaly): Result<Db> {
      if a.id !in anomalies then Err(NotFound) else Ok(this.(anomalies := anomalies[a.id := a]))
    }

    function PutIncident(i: Incident): Result<Db> {
      if i.id in incidents then Err(Exists) else Ok(this.(incidents := incidents[i.id := i]))
    }

    function UpdateIncident(i: Incident): Result<Db> {
      if i.id !in incidents then Err(NotFound) else Ok(this.(incidents := incidents[i.id := i]))
    }

    // A key already taken by another action conflicts; the same action again exists.
    function PutAction(a: Action): Result<Db> {
      if a.idempotency in idempotency then
        Err(if idempotency[a.idempotency] != a.id then Conflict else Exists)
      else if a.id in actions then Err(Exists)
      else Ok(this.(actions := actions[a.id := a], idempotency := idempotency[a.idempotency := a.id]))
    }

    function UpdateAction(a: Action): Result<Db> {
      if a.id !in actions then Err(NotFound) else Ok(this.(actions := actions[a.id := a]))
    }

    function PutEvidence(e: Evidence): Result<Db> {
      if e.id in evidence then Err(Exists) else Ok(this.(evidence := evidence[e.id := e]))
    }

    // The signal the scan sees for a listed anomaly; a missing one reads as the zero record.
    function SignalOf(anomalyId: string): string {
      if anomalyId in anomalies then anomalies[anomalyId].signal else ""
    }

    // May FindOpenIncident answer with this incident?
    ghost predicate Mergeable(id: string, deviceId: string, signal: string, since: int) {
      && id in incidents
      && incidents[id].deviceId == deviceId && incidents[id].status != Closed && incidents[id].openedAt >= since
      && exists k | 0 <= k < |incidents[id].anomalyIds| :: SignalOf(incidents[id].anomalyIds[k]) == signal
    }

    // A possible answer of FindOpenIncident, whatever order the map is scanned in.
    ghost predicate MayFind(deviceId: string, signal: string, since: int, found: Option<string>) {
      match found
      case Some(id) => Mergeable(id, deviceId, signal, since)
      case None => forall id :: !Mergeable(id, deviceId, signal, since)
    }

    predicate Concerns(p: Policy, deviceId: string) {
      deviceId == "" || p.deviceId == deviceId
    }

    // A possible answer of ActivePolicy.
    ghost predicate MayBeActive(deviceId: string, now: int, found: Option<string>) {
      match found
      case Some(id) =>
        && id in policies && Concerns(policies[id], deviceId) && policies[id].ActiveAt(now)
        && forall other | other in policies && Concerns(policies[other], deviceId) && policies[other].ActiveAt(now) ::
             !ListedBefore(policies[other], policies[id])
      case None =>
        forall id | id in policies && Concerns(policies[id], deviceId) :: !policies[id].ActiveAt(now)
    }
  }

  const EMPTY := Db(map[], map[], map[], [], map[], map[], map[], map[], map[])

  // The order ListPolicies sorts by: devices ascending, versions descending.
  predicate ListedBefore(a: Policy, b: Policy) {
    if a.deviceId == b.deviceId then a.version > b.version else LexLess(a.deviceId, b.deviceId)
  }

  lemma ListedBeforeIsWeakOrder(a: Policy, b: Policy, c: Policy)
    ensures ListedBefore(a, b) ==> !ListedBefore(b, a)
    ensures !ListedBefore(b, a) && !ListedBefore(c, b) ==> !ListedBefore(c, a)
  {
    LexTotal(a.deviceId, b.deviceId);
    LexTotal(b.deviceId, c.deviceId);
    LexTotal(a.deviceId, c.deviceId);
    if LexLess(a.deviceId, b.deviceId) && LexLess(b.deviceId, c.deviceId) {
      LexTransitive(a.deviceId, b.deviceId, c.deviceId);
    }
  }

  ghost predicate InListingOrder(list: seq<Policy>) {
    forall i, j | 0 <= i < j < |list| :: !ListedBefore(list[j], list[i])
  }

  method InsertionPoint(list: seq<Policy>, p: Policy) returns (at: nat)
    ensures at <= |list|
    ensures forall j | at <= j < |list| :: ListedBefore(p, list[j])
    ensures at > 0 ==> !ListedBefore(p, list[at - 1])
  {
    at := |list|;
    while at > 0 && ListedBefore(p, list[at - 1])
      invariant 0 <= at <= |list|
      invariant forall j | at <= j < |list| :: ListedBefore(p, list[j])
    {
      at := at - 1;
    }
  }

  lemma InsertKeepsOrder(list: seq<Policy>, p: Policy, at: nat)
    requires InListingOrder(list) && at <= |list|
    requires forall j | at <= j < |list| :: ListedBefore(p, list[j])
    requires at > 0 ==> !ListedBefore(p, list[at - 1])
    ensures InListingOrder(list[..at] + [p] + list[at..])
  {
    forall i | 0 <= i < at
      ensures !ListedBefore(p, list[i])
    {
      ListedBeforeIsWeakOrder(list[i], list[at - 1], p);
    }
    forall j | at <= j < |list|
      ensures !ListedBefore(list[j], p)
    {
      ListedBeforeIsWeakOrder(p, list[j], p);
    }
  }

  // list holds the policies stored under the wanted keys, as many as there are keys.
  ghost predicate Lists(policies: map<string, Policy>, list: seq<Policy>, wanted: set<string>) {
    && |list| == |wanted|
    && (forall id | id in wanted :: id in policies && policies[id] in list)
    && (forall p | p in list :: exists id :: id in wanted && id in policies && policies[id] == p)
  }

  lemma InsertLists(policies: map<string, Policy>, list: seq<Policy>, wanted: set<string>, id: string, at: nat)
    requires Lists(policies, list, wanted) && id !in wanted && id in policies && at <= |list|
    ensures Lists(policies, list[..at] + [policies[id]] + list[at..], wanted + {id})
  {
    var longer := list[..at] + [policies[id]] + list[at..];
    assert list == list[..at] + list[at..];
    assert forall p :: p in longer <==> p in list || p == policies[id];
    forall p | p in longer
      ensures exists x :: x in wanted + {id} && x in policies && policies[x] == p
    {
      if p in list {
        var x :| x in wanted && x in policies && policies[x] == p;
        assert x in wanted + {id};
      }
    }
  }

  method InsertListed(list: seq<Policy>, p: Policy, ghost policies: map<string, Policy>, ghost wanted: set<string>, ghost id: string)
    returns (longer: seq<Policy>)
    requires Lists(policies, list, wanted) && InListingOrder(list)
    requires id !in wanted && id in policies && policies[id] == p
    ensures Lists(policies, longer, wanted + {id}) && InListingOrder(longer)
  {
    var at := InsertionPoint(list, p);
    InsertKeepsOrder(list, p, at);
    InsertLists(policies, list, wanted, id, at);
    longer := list[..at] + [p] + list[at..];
  }

  lemma NothingListed(policies: map<string, Policy>)
    ensures Lists(policies, [], {}) && InListingOrder([])
  {
  }

  // Is the policy asked for? "" asks for every device and for every status.
  predicate Wanted(p: Policy, deviceId: string, status: string) {
    (deviceId == "" || p.deviceId == deviceId) && (status == "" || PolicyStatusText(p.status) == status)
  }

  // The keys of the policies asked for.
  ghost function PoliciesOf(policies: map<string, Policy>, deviceId: string, status: string): set<string> {
    set id | id in policies && Wanted(policies[id], deviceId, status)
  }

  // The first elements of a list, or all of it when no limit is set or it is not reached.
  function Capped<T>(s: seq<T>, limit: int): seq<T> {
    if limit > 0 && |s| > limit then s[..limit] else s
  }

  // A listing: every policy asked for, once and in order, cut at the limit.
  ghost predicate IsListing(policies: map<string, Policy>, list: seq<Policy>, deviceId: string, status: string, limit: int) {
    exists whole :: Lists(policies, whole, PoliciesOf(policies, deviceId, status)) && InListingOrder(whole) && list == Capped(whole, limit)
  }

  /** A listing is of the stored policies of the device and status asked for, by device and then newest
      first; one that is missing would not come before any that is listed, and the limit is reached. */
  lemma ListingMeans(policies: map<string, Policy>, list: seq<Policy>, deviceId: string, status: string, limit: int)
    requires IsListing(policies, list, deviceId, status, limit)
    ensures limit > 0 ==> |list| <= limit
    ensures forall p | p in list :: p in policies.Values && Sought(p, deviceId, status)
    ensures forall i, j | 0 <= i < j < |list| :: ListedNoLater(list[i], list[j])
    ensures forall id | id in policies && Sought(policies[id], deviceId, status) && policies[id] !in list ::
              |list| == limit && forall p | p in list :: ListedNoLater(p, policies[id])
  {
    var whole: seq<Policy> :| Lists(policies, whole, PoliciesOf(policies, deviceId, status)) && InListingOrder(whole) && list == Capped(whole, limit);
    WholeIsSought(policies, whole, deviceId, status);
    CutListing(list, whole, limit);
    hide Sought, ListedNoLater, InListingOrder, IsListing, Lists;
  }

  lemma WholeIsSought(policies: map<string, Policy>, whole: seq<Policy>, deviceId: string, status: string)
    requires Lists(policies, whole, PoliciesOf(policies, deviceId, status))
    ensures forall p | p in whole :: p in policies.Values && Sought(p, deviceId, status)
    ensures forall id | id in policies && Sought(policies[id], deviceId, status) :: policies[id] in whole
  {
    var wanted := PoliciesOf(policies, deviceId, status);
    assert forall p :: Wanted(p, deviceId, status) <==> Sought(p, deviceId, status);
    hide Wanted, Sought;
    forall p | p in whole ensures p in policies.Values && Sought(p, deviceId, status) {
      var id :| id in wanted && id in policies && policies[id] == p;
    }
    forall id | id in policies && Sought(policies[id], deviceId, status) ensures policies[id] in whole {
      assert id in wanted;
    }
  }

  lemma CutListing(list: seq<Policy>, whole: seq<Policy>, limit: int)
    requires InListingOrder(whole) && list == Capped(whole, limit)
    ensures (limit > 0 ==> |list| <= limit) && forall p | p in list :: p in whole
    ensures forall i, j | 0 <= i < j < |list| :: ListedNoLater(list[i], list[j])
    ensures forall p | p in whole && p !in list :: |list| == limit && forall q | q in list :: ListedNoLater(q, p)
  {
    assert whole == list + whole[|list|..];
    forall i, j | 0 <= i < j < |whole| ensures ListedNoLater(whole[i], whole[j]) {
      LexTotal(whole[i].deviceId, whole[j].deviceId);
      assert !ListedBefore(whole[j], whole[i]);
    }
    hide ListedNoLater, InListingOrder;
    forall p | p in whole && p !in list ensures |list| == limit && forall q | q in list :: ListedNoLater(q, p) {
      var j :| 0 <= j < |whole| && whole[j] == p;
      assert j >= |list|;
    }
  }

  // Released, and in its time.
  ghost predicate InEffect(p: Policy, now: int) {
    (p.status.Published? || p.status.Locked?) && p.effectiveFrom <= now && (p.effectiveUntil.Some? ==> now < p.effectiveUntil.value)
  }

  lemma ActiveIsInEffect(policies: map<string, Policy>, now: int)
    ensures forall id | id in policies :: policies[id].ActiveAt(now) <==> InEffect(policies[id], now)
  {
  }

  lemma NotListedBefore(policies: map<string, Policy>, p: Policy)
    ensures forall id | id in policies :: !ListedBefore(policies[id], p) <==> ListedNoLater(p, policies[id])
  {
    forall id | id in policies ensures !ListedBefore(policies[id], p) <==> ListedNoLater(p, policies[id]) {
      LexTotal(policies[id].deviceId, p.deviceId);
    }
  }

  // A policy of the device and with the status text, where "" asks for any.
  ghost predicate Sought(p: Policy, deviceId: string, status: string) {
    && deviceId in {"", p.deviceId}
    && (status != "" ==>
          match p.status
          case Draft => status == "draft"
          case Published => status == "published"
          case Locked => status == "locked"
          case RetiredPolicy => status == "retired")
  }

  ghost predicate ListedNoLater(p: Policy, q: Policy) {
    LexLess(p.deviceId, q.deviceId) || (p.deviceId == q.deviceId && p.version >= q.version)
  }

  // ----- Samples -----

  predicate Selected(s: Sample, streamId: string, start: int, end: int) {
    && (streamId == "" || s.streamId == streamId)
    && (start == 0 || start <= s.observedAt)
    && (end == 0 || s.observedAt < end)
  }

  // The selected samples, latest arrival first.
  ghost function NewestFirst(samples: seq<Sample>, streamId: string, start: int, end: int): seq<Sample> {
    if samples == [] then []
    else
      var last := samples[|samples| - 1];
      (if Selected(last, streamId, start, end) then [last] else []) +
      NewestFirst(samples[..|samples| - 1], streamId, start, end)
  }

  ghost function Listed(samples: seq<Sample>, streamId: string, start: int, end: int, limit: int): seq<Sample> {
    Capped(NewestFirst(samples, streamId, start, end), limit)
  }

  lemma NewestFirstStep(samples: seq<Sample>, index: nat, streamId: string, start: int, end: int)
    requires index < |samples|
    ensures NewestFirst(samples[..index + 1], streamId, start, end)
         == (if Selected(samples[index], streamId, start, end) then [samples[index]] else []) + NewestFirst(samples[..index], streamId, start, end)
  {
    assert samples[..index + 1][..index] == samples[..index];
  }

  lemma {:induction false} ListedAreSelected(samples: seq<Sample>, streamId: string, start: int, end: int)
    ensures forall s | s in NewestFirst(samples, streamId, start, end) :: s in samples && Selected(s, streamId, start, end)
  {
    if samples != [] {
      ListedAreSelected(samples[..|samples| - 1], streamId, start, end);
    }
  }

  // A sample of the stream, unless "" asks for any, observed at start or later and before end,
  // where 0 sets no bound.
  ghost predicate Requested(s: Sample, streamId: string, start: int, end: int) {
    streamId in {"", s.streamId} && (start != 0 ==> s.observedAt >= start) && (end != 0 ==> s.observedAt < end)
  }

  // positions is where the elements of list stand among the samples, latest first.
  ghost predicate TakenFrom(samples: seq<Sample>, list: seq<Sample>, positions: seq<nat>) {
    && |positions| == |list|
    && (forall k | 0 <= k < |list| :: positions[k] < |samples| && samples[positions[k]] == list[k])
    && (forall k, m | 0 <= k < m < |list| :: positions[m] < positions[k])
  }

  ghost predicate FindsAll(samples: seq<Sample>, positions: seq<nat>, streamId: string, start: int, end: int) {
    forall i: nat :: i in positions <==> i < |samples| && Requested(samples[i], streamId, start, end)
  }

  lemma {:induction false} NewestFirstIs(samples: seq<Sample>, streamId: string, start: int, end: int) returns (positions: seq<nat>)
    ensures TakenFrom(samples, NewestFirst(samples, streamId, start, end), positions)
    ensures FindsAll(samples, positions, streamId, start, end)
  {
    positions := [];
    if samples != [] {
      var last := |samples| - 1;
      positions := NewestFirstIs(samples[..last], streamId, start, end);
      var front := NewestFirst(samples[..last], streamId, start, end);
      assert Selected(samples[last], streamId, start, end) <==> Requested(samples[last], streamId, start, end);
      StillTaken(samples, front, positions);
      FindsMore(samples, positions, streamId, start, end);
      hide Selected, Requested, TakenFrom, FindsAll;
      if Requested(samples[last], streamId, start, end) {
        positions := [last] + positions;
      }
    }
  }

  lemma StillTaken(samples: seq<Sample>, list: seq<Sample>, positions: seq<nat>)
    requires samples != [] && TakenFrom(samples[..|samples| - 1], list, positions)
    ensures TakenFrom(samples, [] + list, positions)
    ensures TakenFrom(samples, [samples[|samples| - 1]] + list, [|samples| - 1] + positions)
  {
    assert [] + list == list;
    OneMoreTaken(samples, list, positions);
  }

  lemma OneMoreTaken(samples: seq<Sample>, list: seq<Sample>, positions: seq<nat>)
    requires samples != [] && TakenFrom(samples, list, positions) && forall k | 0 <= k < |positions| :: positions[k] < |samples| - 1
    ensures TakenFrom(samples, [samples[|samples| - 1]] + list, [|samples| - 1] + positions)
  {
    var more, all := [samples[|samples| - 1]] + list, [|samples| - 1] + positions;
    assert forall k | 0 < k < |more| :: more[k] == list[k - 1] && all[k] == positions[k - 1];
  }

  lemma FindsMore(samples: seq<Sample>, positions: seq<nat>, streamId: string, start: int, end: int)
    requires samples != [] && FindsAll(samples[..|samples| - 1], positions, streamId, start, end)
    ensures var last := |samples| - 1;
            FindsAll(samples, if Requested(samples[last], streamId, start, end) then [last] + positions else positions, streamId, start, end)
  {
    hide Requested;
  }

  /** A listing is of the samples asked for, each once and latest first; one that is missing came
      before all that are listed, and the limit is reached. */
  lemma ListedIs(samples: seq<Sample>, streamId: string, start: int, end: int, limit: int) returns (positions: seq<nat>)
    ensures var list := Listed(samples, streamId, start, end, limit);
            && TakenFrom(samples, list, positions) && (limit > 0 ==> |list| <= limit)
            && (forall k | 0 <= k < |list| :: Requested(list[k], streamId, start, end))
            && (forall i: nat | i < |samples| && Requested(samples[i], streamId, start, end) && i !in positions ::
                  |list| == limit && forall k | 0 <= k < |list| :: i < positions[k])
  {
    var all := NewestFirstIs(samples, streamId, start, end);
    positions := Capped(all, limit);
    forall i: nat | i < |samples| && Requested(samples[i], streamId, start, end) && i !in positions
      ensures limit > 0 && |positions| == limit && forall k | 0 <= k < |positions| :: i < positions[k]
    {
      var m :| 0 <= m < |all| && all[m] == i;
    }
  }

  ghost function Flatten(batches: seq<seq<Sample>>): seq<Sample> {
    if batches == [] then [] else Flatten(batches[..|batches| - 1]) + batches[|batches| - 1]
  }

  ghost function AddAll(db: Db, batches: seq<seq<Sample>>): Db {
    if batches == [] then db else AddAll(db, batches[..|batches| - 1]).AddSamples(batches[|batches| - 1])
  }

  /** After any run of additions the store holds exactly the last 10000 samples ever added. */
  lemma {:induction false} RetainsTheLastSamples(batches: seq<seq<Sample>>)
    ensures AddAll(EMPTY, batches) == EMPTY.(samples := Suffix(Flatten(batches), 10000))
  {
    if batches != [] {
      RetainsTheLastSamples(batches[..|batches| - 1]);
      SuffixOfSuffix(Flatten(batches[..|batches| - 1]), batches[|batches| - 1], RETAINED);
    }
  }

  // ----- The mutable store -----

  // What a writing method did, against the value-level operation.
  ghost predicate Commits(before: Db, change: Result<Db>, after: Db, out: Outcome) {
    match change
    case Ok(db) => after == db && out == Done
    case Err(e) => after == before && out == Failed(e)
  }

  class Memory {
    var devices: map<string, Device>
    var streams: map<string, Stream>
    var policies: map<string, Policy>
    var samples: seq<Sample>
    var anomalies: map<string, Anomaly>
    var incidents: map<string, Incident>
    var actions: map<string, Action>
    var evidence: map<string, Evidence>
    var idempotency: map<string, string>

    ghost function View(): Db
      reads this
    {
      Db(devices, streams, policies, samples, anomalies, incidents, actions, evidence, idempotency)
    }

    constructor ()
      ensures View() == EMPTY
    {
      devices, streams, policies, samples := map[], map[], map[], [];
      anomalies, incidents, actions, evidence, idempotency := map[], map[], map[], map[], map[];
    }

    method PutDevice(device: Device) returns (out: Outcome)
      modifies this`devices
      ensures Commits(old(View()), old(View()).PutDevice(device), View(), out)
    {
      if device.id in devices {
        return Failed(Exists);
      }
      devices := devices[device.id := device];
      return Done;
    }

    method GetDevice(id: string) returns (r: Result<Device>)
      ensures r == if id in devices then Ok(devices[id]) else Err(NotFound)
    {
      if id !in devices {
        return Err(NotFound);
      }
      return Ok(devices[id]);
    }

    method UpdateDevice(device: Device, expected: int) returns (out: Outcome)
      modifies this`devices
      ensures Commits(old(View()), old(View()).UpdateDevice(device, expected), View(), out)
      ensures out == Done <==> device.id in old(devices) && (expected <= 0 || old(devices)[device.id].version == expected)
      ensures devices == if out == Done then old(devices)[device.id := device] else old(devices)
    {
      if device.id !in devices {
        return Failed(NotFound);
      }
      if expected > 0 && devices[device.id].version != expected {
        return Failed(Conflict);
      }
      devices := devices[device.id := device];
      return Done;
    }

    method PutStream(stream: Stream) returns (out: Outcome)
      modifies this`streams
      ensures Commits(old(View()), old(View()).PutStream(stream), View(), out)
    {
      if stream.id in streams {
        return Failed(Exists);
      }
      streams := streams[stream.id := stream];
      return Done;
    }

    method GetStream(id: string) returns (r: Result<Stream>)
      ensures r == if id in streams then Ok(streams[id]) else Err(NotFound)
    {
      if id !in streams {
        return Err(NotFound);
      }
      return Ok(streams[id]);
    }

    method UpdateStream(stream: Stream, expected: int) returns (out: Outcome)
      modifies this`streams
      ensures Commits(old(View()), old(View()).UpdateStream(stream, expected), View(), out)
      ensures out == Done <==> stream.id in old(streams) && (expected <= 0 || old(streams)[stream.id].version == expected)
      ensures streams == if out == Done then old(streams)[stream.id := stream] else old(streams)
    {
      if stream.id !in streams {
        return Failed(NotFound);
      }
      if expected > 0 && streams[stream.id].version != expected {
        return Failed(Conflict);
      }
      streams := streams[stream.id := stream];
      return Done;
    }

    method PutPolicy(policy: Policy) returns (out: Outcome)
      modifies this`policies
      ensures Commits(old(View()), old(View()).PutPolicy(policy), View(), out)
    {
      if policy.id in policies {
        return Failed(Exists);
      }
      policies := policies[policy.id := policy];
      return Done;
    }

    method GetPolicy(id: string) returns (r: Result<Policy>)
      ensures r == if id in policies then Ok(policies[id]) else Err(NotFound)
    {
      if id !in policies {
        return Err(NotFound);
      }
      return Ok(policies[id]);
    }

    method UpdatePolicy(policy: Policy, expected: int) returns (out: Outcome)
      modifies this`policies
      ensures Commits(old(View()), old(View()).UpdatePolicy(policy, expected), View(), out)
    {
      if policy.id !in policies {
        return Failed(NotFound);
      }
      if expected > 0 && policies[policy.id].version != expected {
        return Failed(Conflict);
      }
      policies := policies[policy.id := policy];
      return Done;
    }

    // The matching policies in listing order; the order of equals follows the map scan.
    method SortedPolicies(deviceId: string, status: string) returns (list: seq<Policy>)
      ensures Lists(policies, list, PoliciesOf(policies, deviceId, status)) && InListingOrder(list)
    {
      hide Wanted, Lists, InListingOrder;
      NothingListed(policies);
      list := [];
      var rest := policies.Keys;
      ghost var wanted, all := {}, PoliciesOf(policies, deviceId, status);
      while rest != {}
        invariant rest <= policies.Keys
        invariant wanted == all - rest
        invariant Lists(policies, list, wanted) && InListingOrder(list)
        decreases rest
      {
        var id :| id in rest;
        rest := rest - {id};
        var policy := policies[id];
        if !Wanted(policy, deviceId, status) {
          continue;
        }
        assert wanted + {id} == all - rest;
        list := InsertListed(list, policy, policies, wanted, id);
        wanted := wanted + {id};
      }
      assert wanted == all;
    }

    method ListPolicies(deviceId: string, status: string, limit: int) returns (list: seq<Policy>)
      ensures IsListing(policies, list, deviceId, status, limit)
    {
      var whole := SortedPolicies(deviceId, status);
      list := Capped(whole, limit);
    }

    /** The first active policy of the listing. */
    method ActivePolicy(deviceId: string, now: int) returns (r: Result<Policy>, ghost found: Option<string>)
      ensures View().MayBeActive(deviceId, now, found)
      ensures r == if found.Some? then Ok(policies[found.value]) else Err(NotFound)
      ensures r.Ok? ==> exists id :: id in policies && policies[id] == r.value && View().MayBeActive(deviceId, now, Some(id))
      ensures r.Err? ==> View().MayBeActive(deviceId, now, None)
      ensures r.Ok? ==> deviceId in {"", r.value.deviceId} && InEffect(r.value, now)
      ensures r.Ok? ==> forall id | id in policies && deviceId in {"", policies[id].deviceId} && InEffect(policies[id], now) :: ListedNoLater(r.value, policies[id])
      ensures r.Err? ==> forall id | id in policies && deviceId in {"", policies[id].deviceId} :: !InEffect(policies[id], now)
    {
      ActiveIsInEffect(policies, now);
      var list := ListPolicies(deviceId, "", 0);
      for i := 0 to |list|
        invariant forall j | 0 <= j < i :: !list[j].ActiveAt(now)
      {
        if list[i].ActiveAt(now) {
          assert list[i] in list;
          ghost var id :| id in PoliciesOf(policies, deviceId, "") && policies[id] == list[i];
          forall other | other in policies && View().Concerns(policies[other], deviceId) && policies[other].ActiveAt(now)
            ensures !ListedBefore(policies[other], policies[id])
          {
            assert other in PoliciesOf(policies, deviceId, "");
            var j :| 0 <= j < |list| && list[j] == policies[other];
            ListedBeforeIsWeakOrder(list[i], list[j], list[i]);
          }
          NotListedBefore(policies, list[i]);
          return Ok(list[i]), Some(id);
        }
      }
      forall id | id in policies && View().Concerns(policies[id], deviceId)
        ensures !policies[id].ActiveAt(now)
      {
        assert id in PoliciesOf(policies, deviceId, "");
      }
      return Err(NotFound), None;
    }

    method AddSamples(batch: seq<Sample>)
      modifies this`samples
      ensures View() == old(View()).AddSamples(batch)
      ensures samples == var all := old(samples) + batch; if |all| <= 10000 then all else all[|all| - 10000..]
    {
      samples := samples + batch;
      if |samples| > RETAINED {
        samples := samples[|samples| - RETAINED..];
      }
    }

    method ListSamples(streamId: string, start: int, end: int, limit: int) returns (result: seq<Sample>)
      ensures result == Listed(samples, streamId, start, end, limit)
    {
      assert NewestFirst(samples[..0], streamId, start, end) == [];
      hide NewestFirst, Selected;
      result := [];
      var index := |samples| - 1;
      assert samples[..index + 1] == samples;
      while index >= 0
        invariant -1 <= index < |samples|
        invariant NewestFirst(samples, streamId, start, end) == result + NewestFirst(samples[..index + 1], streamId, start, end)
        invariant limit > 0 ==> |result| < limit
      {
        var sample := samples[index];
        NewestFirstStep(samples, index, streamId, start, end);
        index := index - 1;
        if Selected(sample, streamId, start, end) {
          result := result + [sample];
          if limit > 0 && |result| >= limit {
            break;
          }
        }
      }
    }

    method PutAnomaly(anomaly: Anomaly) returns (out: Outcome)
      modifies this`anomalies
      ensures Commits(old(View()), old(View()).PutAnomaly(anomaly), View(), out)
    {
      if anomaly.id in anomalies {
        return Failed(Exists);
      }
      anomalies := anomalies[anomaly.id := anomaly];
      return Done;
    }

    method UpdateAnomaly(anomaly: Anomaly) returns (out: Outcome)
      modifies this`anomalies
      ensures Commits(old(View()), old(View()).UpdateAnomaly(anomaly), View(), out)
    {
      if anomaly.id !in anomalies {
        return Failed(NotFound);
      }
      anomalies := anomalies[anomaly.id := anomaly];
      return Done;
    }

    method PutIncident(incident: Incident) returns (out: Outcome)
      modifies this`incidents
      ensures Commits(old(View()), old(View()).PutIncident(incident), View(), out)
    {
      if incident.id in incidents {
        return Failed(Exists);
      }
      incidents := incidents[incident.id := incident];
      return Done;
    }

    method GetIncident(id: string) returns (r: Result<Incident>)
      ensures r == if id in incidents then Ok(incidents[id]) else Err(NotFound)
    {
      if id !in incidents {
        return Err(NotFound);
      }
      return Ok(incidents[id]);
    }

    method UpdateIncident(incident: Incident) returns (out: Outcome)
      modifies this`incidents
      ensures Commits(old(View()), old(View()).UpdateIncident(incident), View(), out)
    {
      if incident.id !in incidents {
        return Failed(NotFound);
      }
      incidents := incidents[incident.id := incident];
      return Done;
    }

    /** Scans the incidents in any order for one that may take a new anomaly of the signal. */
    method FindOpenIncident(deviceId: string, signal: string, since: int) returns (r: Option<Incident>, ghost found: Option<string>)
      ensures View().MayFind(deviceId, signal, since, found)
      ensures r == if found.Some? then Some(incidents[found.value]) else None
      ensures r.Some? ==> exists id :: id in incidents && incidents[id] == r.value && View().MayFind(deviceId, signal, since, Some(id))
      ensures r == None ==> View().MayFind(deviceId, signal, since, None)
      ensures r.Some? ==>
                && r.value.deviceId == deviceId && r.value.status != Closed && r.value.openedAt >= since
                && exists x :: x in r.value.anomalyIds && signal == if x in anomalies then anomalies[x].signal else ""
      ensures r == None ==>
                forall id, x | id in incidents && incidents[id].deviceId == deviceId && x in incidents[id].anomalyIds
                               && x in anomalies && anomalies[x].signal == signal ::
                  incidents[id].status == Closed || incidents[id].openedAt < since
    {
      var rest := incidents.Keys;
      while rest != {}
        invariant rest <= incidents.Keys
        invariant forall id | id in incidents && id !in rest :: !View().Mergeable(id, deviceId, signal, since)
        decreases rest
      {
        var id :| id in rest;
        rest := rest - {id};
        var incident := incidents[id];
        if incident.deviceId != deviceId || incident.status == Closed {
          continue;
        }
        if incident.openedAt >= since {
          for k := 0 to |incident.anomalyIds|
            invariant forall j | 0 <= j < k :: View().SignalOf(incident.anomalyIds[j]) != signal
          {
            var anomalyId := incident.anomalyIds[k];
            var seen := if anomalyId in anomalies then anomalies[anomalyId].signal else "";
            if seen == signal {
              assert View().SignalOf(incident.anomalyIds[k]) == signal;
              return Some(incident), Some(id);
            }
          }
        }
      }
      return None, None;
    }

    method PutAction(action: Action) returns (out: Outcome)
      modifies this`actions, this`idempotency
      ensures Commits(old(View()), old(View()).PutAction(action), View(), out)
      ensures out == Done <==> action.idempotency !in old(idempotency) && action.id !in old(actions)
      ensures out == Failed(Conflict) <==> action.idempotency in old(idempotency) && old(idempotency)[action.idempotency] != action.id
      ensures out == Done ==> actions == old(actions)[action.id := action] && idempotency == old(idempotency)[action.idempotency := action.id]
    {
      if action.idempotency in idempotency {
        if idempotency[action.idempotency] != action.id {
          return Failed(Conflict);
        }
        return Failed(Exists);
      }
      if action.id in actions {
        return Failed(Exists);
      }
      actions := actions[action.id := action];
      idempotency := idempotency[action.idempotency := action.id];
      return Done;
    }

    method GetAction(id: string) returns (r: Result<Action>)
      ensures r == if id in actions then Ok(actions[id]) else Err(NotFound)
    {
      if id !in actions {
        return Err(NotFound);
      }
      return Ok(actions[id]);
    }

    method UpdateAction(action: Action) returns (out: Outcome)
      modifies this`actions
      ensures Commits(old(View()), old(View()).UpdateAction(action), View(), out)
    {
      if action.id !in actions {
        return Failed(NotFound);
      }
      actions := actions[action.id := action];
      return Done;
    }

    method PutEvidence(item: Evidence) returns (out: Outcome)
      modifies this`evidence
      ensures Commits(old(View()), old(View()).PutEvidence(item), View(), out)
    {
      if item.id in evidence {
        return Failed(Exists);
      }
      evidence := evidence[item.id := item];
      return Done;
    }
  }
}
