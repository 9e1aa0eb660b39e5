/**
 * Clients that create, publish and lock policies at the same time. An update is given the version
 * the policy keeps, so the store never refuses it and whole copies overwrite each other; what
 * holds is what every copy agrees on.
 */
module Releases {
  import opened Basics
  import opened Domain
  import opened Store
  import opened Invariant
  import opened Guarantees

  // The policies a scan looked at, and the clock reading it was made with.
  datatype Scan = Scan(policies: map<string, Policy>, at: int)

  // What a client will do next with the copy it read. A publish scans before it writes; seen is
  // a history of that scan.
  datatype Stage = Scanning(copy: Policy) | Publishing(copy: Policy, seen: Scan) | Locking(copy: Policy)

  // since is the time of the client's last step.
  datatype Busy = Busy(stage: Stage, since: int)

  // stated is a history: the start each policy was created with, 0 when none was stated.
  datatype World = World(db: Db, clients: map<nat, Busy>, now: int, stated: map<string, int>)

  // at is the clock reading a client takes before a step, end the time of the step itself.
  datatype Event =
    | Create(made: Policy, end: int)
    | Begin(client: nat, id: string, lock: bool, end: int)
    | Step(client: nat, at: int, found: Option<string>, end: int)

  ghost predicate Can(w: World, e: Event) {
    match e
    case Create(p, end) => w.now <= end && p.status == Draft && p.effectiveUntil == None && p.version >= 1 && p.deviceId != ""
    case Begin(c, _, _, end) => c !in w.clients && w.now <= end
    case Step(c, at, found, end) =>
      && c in w.clients && w.clients[c].since <= at <= end && w.now <= end
      && (w.clients[c].stage.Scanning? ==> w.db.MayBeActive(w.clients[c].stage.copy.deviceId, at, found))
  }

  // The policy a stage offers to the store, if it gets that far.
  function Offered(stage: Stage, at: int): Result<Policy> {
    match stage
    case Scanning(_) => Err(Invalid)
    case Publishing(p, _) => p.Publish(at)
    case Locking(p) => p.Lock(at)
  }

  function Scanned(db: Db, p: Policy, at: int, found: Option<string>): Option<Stage> {
    if found.Some? && found.value in db.policies && db.policies[found.value].version >= p.version then None
    else Some(Publishing(p, Scan(db.policies, at)))
  }

  function Placed(clients: map<nat, Busy>, c: nat, stage: Option<Stage>, now: int): map<nat, Busy> {
    match stage
    case None => clients - {c}
    case Some(st) => clients[c := Busy(st, now)]
  }

  function Next(w: World, e: Event): World {
    match e
    case Create(p, end) =>
      if p.id in w.db.policies then w.(now := end)
      else w.(db := w.db.PutPolicy(p).Or(w.db), now := end, stated := w.stated[p.id := p.effectiveFrom])
    case Begin(c, id, lock, end) =>
      if id !in w.db.policies then w.(now := end)
      else w.(clients := w.clients[c := Busy(if lock then Locking(w.db.policies[id]) else Scanning(w.db.policies[id]), end)], now := end)
    case Step(c, at, found, end) =>
      if c !in w.clients then w
      else
        match w.clients[c].stage
        case Scanning(p) => w.(clients := Placed(w.clients, c, Scanned(w.db, p, at, found), end), now := end)
        case _ =>
          (match Offered(w.clients[c].stage, at)
           case Err(_) => w.(clients := w.clients - {c}, now := end)
           case Ok(p) => w.(db := w.db.UpdatePolicy(p, p.version).Or(w.db), clients := w.clients - {c}, now := end))
  }

  ghost predicate CanRun(events: seq<Event>) {
    events == [] || (CanRun(events[..|events| - 1]) && Can(Run(events[..|events| - 1]), events[|events| - 1]))
  }

  ghost function Run(events: seq<Event>): World {
    if events == [] then World(EMPTY, map[], 1, map[]) else Next(Run(events[..|events| - 1]), events[|events| - 1])
  }

  // ----- What every copy carries -----

  // A draft keeps the start it was created with; a released policy has that start or, when none
  // was stated, one that has passed.
  ghost predicate CopyOk(p: Policy, stated: map<string, int>, now: int) {
    && p.id in stated && p.version >= 1 && p.deviceId != "" && p.effectiveUntil == None && p.status != RetiredPolicy
    && if p.status == Draft || stated[p.id] != 0 then p.effectiveFrom == stated[p.id] else 0 < p.effectiveFrom <= now
  }

  // A copy is of the stored policy, which is released at least if the copy is.
  ghost predicate HeldOk(p: Policy, policies: map<string, Policy>) {
    && p.id in policies
    && var q := policies[p.id];
       q.deviceId == p.deviceId && q.version == p.version && (Released(p) ==> Released(q))
  }

  ghost predicate StoredOk(w: World) {
    w.now >= 1 && forall id | id in w.db.policies :: w.db.policies[id].id == id && CopyOk(w.db.policies[id], w.stated, w.now)
  }

  ghost predicate BusyOk(w: World, b: Busy) {
    1 <= b.since <= w.now && CopyOk(b.stage.copy, w.stated, w.now) && HeldOk(b.stage.copy, w.db.policies)
  }

  ghost predicate Sound(w: World) {
    StoredOk(w) && forall c | c in w.clients :: BusyOk(w, w.clients[c])
  }

  // A later record of a policy: still released, and still in effect if it was.
  ghost predicate Follows(p: Policy, now: int, p': Policy, now': int) {
    && p'.id == p.id && p'.deviceId == p.deviceId && p'.version == p.version
    && (Released(p) ==> Released(p')) && (p.ActiveAt(now) ==> p'.ActiveAt(now'))
  }

  ghost predicate AllFollow(w: World, w': World) {
    w.now <= w'.now && forall id | id in w.db.policies :: id in w'.db.policies && Follows(w.db.policies[id], w.now, w'.db.policies[id], w'.now)
  }

  lemma OfferedIsOk(w: World, c: nat, at: int, end: int)
    requires Sound(w) && c in w.clients && w.clients[c].since <= at <= end && w.now <= end
    requires Offered(w.clients[c].stage, at).Ok?
    ensures var p, p' := w.clients[c].stage.copy, Offered(w.clients[c].stage, at).value;
            CopyOk(p', w.stated, end) && p'.id == p.id && p'.deviceId == p.deviceId && p'.version == p.version && Released(p')
  {
    assert BusyOk(w, w.clients[c]);
  }

  // Another client's copy outlives the write of a policy that is released at least as far.
  lemma BusyStays(w: World, w': World, b: Busy, p': Policy)
    requires BusyOk(w, b) && w'.stated == w.stated && w.now <= w'.now && w'.db.policies == w.db.policies[p'.id := p'] && Released(p')
    requires p'.id in w.db.policies ==> p'.deviceId == w.db.policies[p'.id].deviceId && p'.version == w.db.policies[p'.id].version
    ensures BusyOk(w', b)
  {
  }

  lemma WriteIsSound(w: World, c: nat, p': Policy, end: int)
    requires Sound(w) && c in w.clients && w.now <= end && CopyOk(p', w.stated, end) && Released(p')
    requires var p := w.clients[c].stage.copy; p'.id == p.id && p'.deviceId == p.deviceId && p'.version == p.version
    ensures var w' := w.(db := w.db.UpdatePolicy(p', p'.version).Or(w.db), clients := w.clients - {c}, now := end);
            Sound(w') && AllFollow(w, w')
  {
    assert BusyOk(w, w.clients[c]);
    var w' := w.(db := w.db.UpdatePolicy(p', p'.version).Or(w.db), clients := w.clients - {c}, now := end);
    assert w'.db.policies == w.db.policies[p'.id := p'];
    forall d | d in w'.clients ensures BusyOk(w', w'.clients[d]) {
      BusyStays(w, w', w.clients[d], p');
    }
  }

  // A client's copy is one it had, or a stored policy it has just read.
  ghost predicate Comes(w: World, b: Busy, c: nat, now: int) {
    && 1 <= b.since <= now
    && ((c in w.clients && b.stage.copy == w.clients[c].stage.copy)
        || (b.stage.copy.id in w.db.policies && b.stage.copy == w.db.policies[b.stage.copy.id]))
  }

  // Steps that write no stored policy.
  lemma QuietIsSound(w: World, w': World)
    requires Sound(w) && w'.db == w.db && w'.stated == w.stated && w.now <= w'.now
    requires forall c | c in w'.clients :: Comes(w, w'.clients[c], c, w'.now)
    ensures Sound(w') && AllFollow(w, w')
  {
    forall c | c in w'.clients ensures BusyOk(w', w'.clients[c]) {
      assert Comes(w, w'.clients[c], c, w'.now);
      if c in w.clients && w'.clients[c].stage.copy == w.clients[c].stage.copy {
        assert BusyOk(w, w.clients[c]);
      }
    }
  }

  lemma CreateIsSound(w: World, e: Event)
    requires Sound(w) && Can(w, e) && e.Create? && e.made.id !in w.db.policies
    ensures Sound(Next(w, e)) && AllFollow(w, Next(w, e))
  {
    var w' := Next(w, e);
    forall c | c in w'.clients ensures BusyOk(w', w'.clients[c]) {
      assert BusyOk(w, w.clients[c]);
    }
  }

  // A client begins with a stored policy, scans, or gives up.
  lemma QuietStepComes(w: World, e: Event, c: nat)
    requires Sound(w) && Can(w, e) && c in Next(w, e).clients
    requires e.Create? ==> e.made.id in w.db.policies
    ensures Comes(w, Next(w, e).clients[c], c, Next(w, e).now)
  {
    assert c in w.clients ==> BusyOk(w, w.clients[c]);
    assert forall id | id in w.db.policies :: w.db.policies[id].id == id;
    hide Sound, StoredOk, BusyOk, Db.MayBeActive;
  }

  lemma QuietStepIsSound(w: World, e: Event)
    requires Sound(w) && Can(w, e)
    requires e.Create? ==> e.made.id in w.db.policies
    requires e.Step? && !w.clients[e.client].stage.Scanning? ==> Offered(w.clients[e.client].stage, e.at).Err?
    ensures Sound(Next(w, e)) && AllFollow(w, Next(w, e))
  {
    hide Sound, AllFollow, Db.MayBeActive, Offered, Comes, Placed, Scanned;
    forall c | c in Next(w, e).clients ensures Comes(w, Next(w, e).clients[c], c, Next(w, e).now) {
      QuietStepComes(w, e, c);
    }
    QuietIsSound(w, Next(w, e));
  }

  lemma WriteStepIsSound(w: World, e: Event)
    requires Sound(w) && Can(w, e) && e.Step? && !w.clients[e.client].stage.Scanning? && Offered(w.clients[e.client].stage, e.at).Ok?
    ensures Sound(Next(w, e)) && AllFollow(w, Next(w, e))
  {
    hide Sound, AllFollow, Offered, CopyOk;
    OfferedIsOk(w, e.client, e.at, e.end);
    WriteIsSound(w, e.client, Offered(w.clients[e.client].stage, e.at).value, e.end);
  }

  /** Each step keeps what every copy carries, and lets stored policies only go forward. */
  lemma StepIsSound(w: World, e: Event)
    requires Sound(w) && Can(w, e)
    ensures Sound(Next(w, e)) && AllFollow(w, Next(w, e))
  {
    hide Sound, AllFollow, Next, Db.MayBeActive;
    if e.Create? && e.made.id !in w.db.policies {
      CreateIsSound(w, e);
    } else if e.Step? && !w.clients[e.client].stage.Scanning? && Offered(w.clients[e.client].stage, e.at).Ok? {
      WriteStepIsSound(w, e);
    } else {
      QuietStepIsSound(w, e);
    }
  }

  lemma {:induction false} EveryRunIsSound(events: seq<Event>)
    requires CanRun(events)
    ensures Sound(Run(events))
  {
    if events != [] {
      hide Sound, Can, Next;
      EveryRunIsSound(events[..|events| - 1]);
      StepIsSound(Run(events[..|events| - 1]), events[|events| - 1]);
    }
  }

  /** Under every interleaving a released policy stays released, and one in effect stays in effect. */
  lemma {:induction false} PoliciesGoForward(events: seq<Event>, n: nat)
    requires CanRun(events) && n <= |events|
    ensures CanRun(events[..n]) && AllFollow(Run(events[..n]), Run(events))
    decreases |events|
  {
    if n == |events| {
      assert events[..n] == events;
    } else {
      var front := events[..|events| - 1];
      assert front[..n] == events[..n];
      PoliciesGoForward(front, n);
      EveryRunIsSound(front);
      hide Sound, Can, Next, Follows;
      StepIsSound(Run(front), events[|events| - 1]);
      FollowTwice(Run(events[..n]), Run(front), Run(events));
    }
  }

  lemma FollowTwice(a: World, b: World, c: World)
    requires AllFollow(a, b) && AllFollow(b, c)
    ensures AllFollow(a, c)
  {
  }

  /** Under every interleaving of create, publish and lock steps the version in force for a device never decreases. */
  lemma VersionInForceNeverDecreases(events: seq<Event>, n: nat, deviceId: string, before: int, after: int)
    requires CanRun(events) && n <= |events|
    requires InForce(Run(events[..n]).db.policies, deviceId, Run(events[..n]).now, before)
    requires InForce(Run(events).db.policies, deviceId, Run(events).now, after)
    ensures before <= after
  {
    PoliciesGoForward(events, n);
    EveryRunIsSound(events);
    ForceGoesForward(Run(events[..n]), Run(events), deviceId, before, after);
  }

  lemma ForceGoesForward(w: World, w': World, deviceId: string, before: int, after: int)
    requires AllFollow(w, w') && Sound(w')
    requires InForce(w.db.policies, deviceId, w.now, before) && InForce(w'.db.policies, deviceId, w'.now, after)
    ensures before <= after
  {
    if before != 0 {
      var id :| id in w.db.policies && w.db.policies[id].deviceId == deviceId && w.db.policies[id].ActiveAt(w.now) && w.db.policies[id].version == before;
      assert Follows(w.db.policies[id], w.now, w'.db.policies[id], w'.now);
    }
  }

  // ----- When the published policy is the answer -----

  // What a client's scan saw: no active policy of the device as new as its own; all of it is still stored.
  ghost predicate SeenOk(policies: map<string, Policy>, p: Policy, seen: Scan) {
    forall id | id in seen.policies ::
      && id in policies && policies[id].deviceId == seen.policies[id].deviceId && policies[id].version == seen.policies[id].version
      && (seen.policies[id].deviceId == p.deviceId && seen.policies[id].ActiveAt(seen.at) ==> seen.policies[id].version < p.version)
  }

  ghost predicate ScansOk(w: World) {
    forall c | c in w.clients && w.clients[c].stage.Publishing? :: SeenOk(w.db.policies, w.clients[c].stage.copy, w.clients[c].stage.seen)
  }

  lemma ScanIsSeen(db: Db, p: Policy, at: int, found: Option<string>)
    requires db.MayBeActive(p.deviceId, at, found) && p.deviceId != "" && Scanned(db, p, at, found).Some?
    ensures SeenOk(db.policies, p, Scan(db.policies, at))
  {
  }

  lemma SeenStays(w: World, w': World, p: Policy, seen: Scan)
    requires AllFollow(w, w') && SeenOk(w.db.policies, p, seen)
    ensures SeenOk(w'.db.policies, p, seen)
  {
    forall id | id in seen.policies ensures id in w'.db.policies && w'.db.policies[id].deviceId == seen.policies[id].deviceId && w'.db.policies[id].version == seen.policies[id].version {
      assert Follows(w.db.policies[id], w.now, w'.db.policies[id], w'.now);
    }
  }

  // A client publishes next only if it was about to, or its scan has just let it.
  lemma NextPublishing(w: World, e: Event, c: nat)
    requires Can(w, e) && c in Next(w, e).clients && Next(w, e).clients[c].stage.Publishing?
    ensures c in w.clients
    ensures w.clients[c].stage == Next(w, e).clients[c].stage
            || (e.Step? && e.client == c && w.clients[c].stage.Scanning? && Next(w, e).db == w.db
                && Scanned(w.db, w.clients[c].stage.copy, e.at, e.found) == Some(Next(w, e).clients[c].stage))
  {
    hide Db.MayBeActive;
  }

  lemma ScanStays(w: World, e: Event, c: nat)
    requires Sound(w) && ScansOk(w) && Can(w, e) && AllFollow(w, Next(w, e)) && c in Next(w, e).clients && Next(w, e).clients[c].stage.Publishing?
    ensures SeenOk(Next(w, e).db.policies, Next(w, e).clients[c].stage.copy, Next(w, e).clients[c].stage.seen)
  {
    NextPublishing(w, e, c);
    assert BusyOk(w, w.clients[c]);
    hide AllFollow, SeenOk, StoredOk, Next, Db.MayBeActive;
    if w.clients[c].stage == Next(w, e).clients[c].stage {
      SeenStays(w, Next(w, e), w.clients[c].stage.copy, w.clients[c].stage.seen);
    } else {
      ScanIsSeen(w.db, w.clients[c].stage.copy, e.at, e.found);
    }
  }

  lemma StepKeepsScans(w: World, e: Event)
    requires Sound(w) && ScansOk(w) && Can(w, e)
    ensures ScansOk(Next(w, e))
  {
    StepIsSound(w, e);
    hide Next, Sound, AllFollow, Can, SeenOk;
    forall c | c in Next(w, e).clients && Next(w, e).clients[c].stage.Publishing?
      ensures SeenOk(Next(w, e).db.policies, Next(w, e).clients[c].stage.copy, Next(w, e).clients[c].stage.seen)
    {
      ScanStays(w, e, c);
    }
  }

  lemma {:induction false} EveryRunKeepsScans(events: seq<Event>)
    requires CanRun(events)
    ensures ScansOk(Run(events))
  {
    if events != [] {
      hide Sound, ScansOk, Can, Next;
      EveryRunKeepsScans(events[..|events| - 1]);
      EveryRunIsSound(events[..|events| - 1]);
      StepKeepsScans(Run(events[..|events| - 1]), events[|events| - 1]);
    }
  }

  // Another policy of the device, in effect at the time and at least as new.
  ghost predicate Rivals(policies: map<string, Policy>, other: string, p: Policy, at: int) {
    && other in policies && other != p.id && policies[other].deviceId == p.deviceId
    && policies[other].ActiveAt(at) && policies[other].version >= p.version
  }

  // The other policy was released, or took effect, after the scan.
  ghost predicate NewSince(seen: Scan, other: string) {
    !(other in seen.policies && seen.policies[other].ActiveAt(seen.at))
  }

  lemma UnrivalledAnswers(db: Db, id: string, at: int)
    requires id in db.policies && db.policies[id].id == id && db.policies[id].deviceId != "" && db.policies[id].ActiveAt(at)
    requires forall other :: !Rivals(db.policies, other, db.policies[id], at)
    ensures OnlyAnswer(db, db.policies[id].deviceId, at, id)
  {
    forall found | db.MayBeActive(db.policies[id].deviceId, at, found) ensures found == Some(id) {
      assert found.Some? ==> !Rivals(db.policies, found.value, db.policies[id], at);
    }
  }

  lemma RivalledIsNotOnly(db: Db, id: string, at: int, rival: string)
    requires id in db.policies && db.policies[id].id == id && db.policies[id].deviceId != "" && db.policies[id].ActiveAt(at)
    requires Rivals(db.policies, rival, db.policies[id], at)
    ensures !OnlyAnswer(db, db.policies[id].deviceId, at, id)
  {
    var p := db.policies[id];
    var rivals := set other | other in db.policies && Rivals(db.policies, other, p, at);
    assert rival in rivals;
    var best := Newest(db.policies, rivals);
    assert db.MayBeActive(p.deviceId, at, Some(best)) by {
      forall other | other in db.policies && db.Concerns(db.policies[other], p.deviceId) && db.policies[other].ActiveAt(at)
        ensures !ListedBefore(db.policies[other], db.policies[best])
      {
        assert other in rivals || other == id || db.policies[other].version < p.version;
      }
    }
  }

  // The step publishes the client's policy, which applies at the reading.
  ghost predicate Publishes(w: World, e: Event) {
    && e.Step? && e.client in w.clients && w.clients[e.client].stage.Publishing?
    && w.clients[e.client].stage.copy.status == Draft && w.clients[e.client].stage.copy.effectiveFrom <= e.at
  }

  lemma PublishedIs(w: World, e: Event)
    requires Sound(w) && Can(w, e) && Publishes(w, e)
    ensures var p := w.clients[e.client].stage.copy;
            && p.deviceId != "" && p.id in w.db.policies && p.Publish(e.at).Ok? && p.Publish(e.at).value.ActiveAt(e.at)
            && Next(w, e).db.policies == w.db.policies[p.id := p.Publish(e.at).value]
  {
    assert BusyOk(w, w.clients[e.client]);
  }

  lemma SameRivals(policies: map<string, Policy>, p: Policy, p': Policy, at: int)
    requires p'.id == p.id && p'.deviceId == p.deviceId && p'.version == p.version
    ensures forall other :: Rivals(policies[p.id := p'], other, p', at) <==> Rivals(policies, other, p, at)
  {
  }

  /** A policy published as effective is the only possible answer at its publishing time, exactly
      unless another of the device, at least as new, was released or took effect since its client's scan. */
  lemma PublishedIsOnlyUnlessOvertaken(w: World, e: Event)
    requires Sound(w) && ScansOk(w) && Can(w, e) && Publishes(w, e)
    ensures var p, seen := w.clients[e.client].stage.copy, w.clients[e.client].stage.seen;
            OnlyAnswer(Next(w, e).db, p.deviceId, e.at, p.id)
            <==> !exists other :: Rivals(w.db.policies, other, p, e.at) && NewSince(seen, other)
  {
    var p, seen := w.clients[e.client].stage.copy, w.clients[e.client].stage.seen;
    PublishedIs(w, e);
    assert SeenOk(w.db.policies, p, seen);
    var p' := p.Publish(e.at).value;
    SameRivals(w.db.policies, p, p', e.at);
    forall other | Rivals(w.db.policies, other, p, e.at) ensures NewSince(seen, other) {
    }
    hide Sound, Can, Next, Publishes, SeenOk, NewSince, Rivals, OnlyAnswer, ScansOk;
    if other :| Rivals(w.db.policies, other, p, e.at) {
      RivalledIsNotOnly(Next(w, e).db, p.id, e.at, other);
    } else {
      var policies := Next(w, e).db.policies;
      forall other ensures !Rivals(policies, other, p', e.at) {
        assert !Rivals(w.db.policies, other, p, e.at);
      }
      UnrivalledAnswers(Next(w, e).db, p.id, e.at);
    }
  }

  /** The same, at every publish of every interleaved run. */
  lemma PublishedInRun(events: seq<Event>, e: Event)
    requires CanRun(events) && Can(Run(events), e) && Publishes(Run(events), e)
    ensures var p, seen := Run(events).clients[e.client].stage.copy, Run(events).clients[e.client].stage.seen;
            OnlyAnswer(Run(events + [e]).db, p.deviceId, e.at, p.id)
            <==> !exists other :: Rivals(Run(events).db.policies, other, p, e.at) && NewSince(seen, other)
  {
    EveryRunIsSound(events);
    EveryRunKeepsScans(events);
    PublishedIsOnlyUnlessOvertaken(Run(events), e);
    assert (events + [e])[..|events + [e]| - 1] == events;
  }

  // ----- Two publishes that cross -----

  function Drafted(id: string): Policy {
    Policy(id, "n", "d", 1, Draft, 0, None, [], 0, "a", 1, 1)
  }

  function InEffect(id: string): Policy {
    Drafted(id).(status := Published, effectiveFrom := 1)
  }

  // Both clients scan before either publishes.
  const CROSSED: seq<Event> := [
    Create(Drafted("p"), 1), Create(Drafted("q"), 1),
    Begin(1, "p", false, 1), Begin(2, "q", false, 1),
    Step(1, 1, None, 1), Step(2, 1, None, 1),
    Step(1, 1, None, 1)]

  const LAST := Step(2, 1, None, 1)

  function Stated(policies: map<string, Policy>, clients: map<nat, Busy>): World {
    World(EMPTY.(policies := policies), clients, 1, map["p" := 0, "q" := 0])
  }

  function Drafts(): map<string, Policy> {
    map["p" := Drafted("p"), "q" := Drafted("q")]
  }

  function Seen(): Scan {
    Scan(Drafts(), 1)
  }

  function BothBegun(): World {
    Stated(Drafts(), map[1 := Busy(Scanning(Drafted("p")), 1), 2 := Busy(Scanning(Drafted("q")), 1)])
  }

  function BothScanned(): World {
    Stated(Drafts(), map[1 := Busy(Publishing(Drafted("p"), Seen()), 1), 2 := Busy(Publishing(Drafted("q"), Seen()), 1)])
  }

  function OnePublished(): World {
    Stated(map["p" := InEffect("p"), "q" := Drafted("q")], map[2 := Busy(Publishing(Drafted("q"), Seen()), 1)])
  }

  lemma RunStep(events: seq<Event>, k: nat)
    requires k < |events|
    ensures Run(events[..k + 1]) == Next(Run(events[..k]), events[k])
    ensures CanRun(events[..k + 1]) <==> CanRun(events[..k]) && Can(Run(events[..k]), events[k])
  {
    hide Can, Next;
    assert events[..k + 1][..k] == events[..k];
  }

  lemma BothBegin()
    ensures CanRun(CROSSED[..4]) && Run(CROSSED[..4]) == BothBegun()
  {
    RunStep(CROSSED, 0);
    RunStep(CROSSED, 1);
    RunStep(CROSSED, 2);
    RunStep(CROSSED, 3);
    assert Run(CROSSED[..2]) == Stated(Drafts(), map[]);
    assert Run(CROSSED[..3]) == Stated(Drafts(), map[1 := Busy(Scanning(Drafted("p")), 1)]);
  }

  function OneScanned(): World {
    Stated(Drafts(), map[1 := Busy(Publishing(Drafted("p"), Seen()), 1), 2 := Busy(Scanning(Drafted("q")), 1)])
  }

  lemma NoneIsActive()
    ensures EMPTY.(policies := Drafts()).MayBeActive("d", 1, None)
  {
  }

  lemma ScanOne()
    ensures Can(BothBegun(), CROSSED[4]) && Next(BothBegun(), CROSSED[4]) == OneScanned()
  {
    NoneIsActive();
    hide Db.MayBeActive, Drafts;
  }

  lemma ScanOther()
    ensures Can(OneScanned(), CROSSED[5]) && Next(OneScanned(), CROSSED[5]) == BothScanned()
  {
    NoneIsActive();
    hide Db.MayBeActive, Drafts;
  }

  lemma PublishOne()
    ensures Can(BothScanned(), CROSSED[6]) && Next(BothScanned(), CROSSED[6]) == OnePublished()
  {
    var policies := map["p" := InEffect("p"), "q" := Drafted("q")];
    assert Drafts()["p" := InEffect("p")] == policies;
    assert BothScanned().clients - {1} == OnePublished().clients;
    assert Drafted("p").Publish(1) == Ok(InEffect("p"));
    hide Policy.Publish, Drafted, InEffect;
    assert Drafted("p").id == "p" && InEffect("p").id == "p" by { Named("p"); }
  }

  lemma Named(id: string)
    ensures Drafted(id).id == id && InEffect(id).id == id
  {
  }

  lemma OnePublishes()
    ensures CanRun(CROSSED) && Run(CROSSED) == OnePublished()
  {
    BothBegin();
    RunStep(CROSSED, 4);
    RunStep(CROSSED, 5);
    RunStep(CROSSED, 6);
    ScanOne();
    ScanOther();
    PublishOne();
    assert CROSSED[..7] == CROSSED;
    hide Run, CanRun, Can, Next, BothBegun, OneScanned, BothScanned, OnePublished;
  }

  /** Two clients pass the version test before either publishes: the second policy, published as
      effective, is not the only answer, for the first is as new and took effect since its scan. */
  lemma CrossingPublishesAreNotOnly()
    ensures CanRun(CROSSED) && Can(Run(CROSSED), LAST) && Publishes(Run(CROSSED), LAST)
    ensures Rivals(Run(CROSSED).db.policies, "p", Drafted("q"), 1) && NewSince(Seen(), "p")
    ensures !OnlyAnswer(Run(CROSSED + [LAST]).db, "d", 1, "q")
  {
    OnePublishes();
    hide Run, CanRun, OnlyAnswer;
    PublishedInRun(CROSSED, LAST);
    assert Rivals(Run(CROSSED).db.policies, "p", Drafted("q"), 1) && NewSince(Seen(), "p");
  }
}
