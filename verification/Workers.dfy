/**
 * The job queue drained by workers whose store operations interleave with each other's and with
 * those of calls already under way. A write from an old copy may undo an attempt, and still every
 * drain ends.
 */
module Workers {
  import opened Basics
  import opened Domain
  import opened Store
  import opened Calls
  import opened IncidentFacts
  import opened Records
  import opened Executions

  // left is what each client that evaluates a stream has still to create: a number of anomalies.
  datatype Crew = Crew(world: World, jobs: seq<Work>, left: map<nat, nat>, capacity: nat, running: bool)

  // A free client takes the next job and makes its first store operation, unless its context has
  // ended; a client goes on to its next detection; or a client makes its next store operation.
  datatype Move =
    | Take(client: nat, live: bool, detections: nat, item: EvidenceInput, end: int)
    | Turn(client: nat, found: Anomaly, end: int)
    | Go(event: Event)

  ghost predicate CanMove(s: Crew, m: Move) {
    match m
    case Take(c, _, _, _, end) => s.jobs != [] && c !in s.world.clients && c !in s.left && s.world.now <= end
    case Turn(c, found, end) => c in s.left && c !in s.world.clients && s.world.now <= end && found.incidentId == ""
    case Go(e) => !e.Begin? && Can(s.world, e)
  }

  function Submitted(s: Crew, work: Option<Work>): seq<Work> {
    if work.Some? && s.running && |s.jobs| < s.capacity then s.jobs + [work.value] else s.jobs
  }

  // The job a step submits: a rollup once the incident is stored, a response once the action is
  // attached, and another attempt once one has failed.
  function Submission(stage: Stage, at: int, next: Option<Stage>): Option<Work> {
    match stage
    case Opening(_) => if next.Some? && next.value.Linking? then Some(EvidenceRollup(next.value.anomaly.incidentId)) else None
    case AttachingAction(_, id) => Some(Response(id))
    case Finishing(a) =>
      var (success, message) := a.Simulate();
      if !success && a.Finish(success, message, at).CanRetry() then Some(Response(a.id)) else None
    case _ => None
  }

  function RequestOf(job: Work, item: EvidenceInput): Request {
    match job
    case Response(id) => Execute(id)
    case EvidenceRollup(id) => Gather(id, item, true)
    case Evaluation(_, _) => Execute("")
  }

  function Moved(s: Crew, m: Move): Crew {
    match m
    case Take(c, live, detections, item, end) =>
      if s.jobs == [] then s
      else
        var s1 := s.(jobs := s.jobs[1..]);
        if !live then s1
        else if s.jobs[0].Evaluation? then s1.(left := s.left[c := detections])
        else s1.(world := Next(s.world, Begin(c, RequestOf(s.jobs[0], item), end)))
    case Turn(c, found, end) =>
      if c !in s.left || s.left[c] == 0 then s.(left := s.left - {c})
      else s.(left := s.left[c := s.left[c] - 1], world := Next(s.world, Begin(c, Detect(found), end)))
    case Go(e) =>
      if e.Step? && e.client in s.world.clients then
        var stage := s.world.clients[e.client].stage;
        s.(world := Next(s.world, e), jobs := Submitted(s, Submission(stage, e.at, Advanced(s.world.db, stage, e.at, e.choice).1)))
      else s.(world := Next(s.world, e))
  }

  // ----- What is left to do -----

  ghost function Total(m: map<nat, nat>): nat
    decreases |m|
  {
    if m == map[] then 0
    else
      var k :| k in m;
      m[k] + Total(m - {k})
  }

  lemma {:induction false} TotalSplits(m: map<nat, nat>, k: nat)
    requires k in m
    ensures Total(m) == m[k] + Total(m - {k})
    decreases |m|
  {
    var first :| first in m && Total(m) == m[first] + Total(m - {first});
    if first != k {
      TotalSplits(m - {first}, k);
      TotalSplits(m - {k}, first);
      assert m - {first} - {k} == m - {k} - {first};
    }
  }

  lemma TotalAfter(m: map<nat, nat>, k: nat, v: nat)
    ensures Total(m[k := v]) == Total(m - {k}) + v
    ensures Total(m) == Total(m - {k}) + if k in m then m[k] else 0
  {
    TotalSplits(m[k := v], k);
    assert m[k := v] - {k} == m - {k};
    if k in m {
      TotalSplits(m, k);
    } else {
      assert m - {k} == m;
    }
  }

  // An action that may still be in its first attempt.
  predicate Fresh(a: Action) {
    a.attempt < 1 && a.status != Skipped
  }

  predicate Spent(actions: Actions, id: string) {
    id in actions && !Fresh(actions[id])
  }

  // The moves a job, a stage or an evaluation may still take, with those of what it submits.
  function JobMoves(actions: Actions, job: Work): nat {
    match job
    case Evaluation(_, _) => 0
    case Response(id) => if Spent(actions, id) then 3 else 6
    case EvidenceRollup(_) => 3
  }

  function StageMoves(stage: Stage): nat {
    match stage
    case Detected(_) => 6
    case Opening(_) => 5
    case Merging(_, _) => 2
    case Linking(_) => 1
    case Moving(_, _) => 1
    case Acting(_, _) => 8
    case AttachingAction(_, _) => 7
    case Gathering(_, _) => 2
    case AttachingEvidence(_, _) => 1
    case Starting(a) => if Fresh(a) then 5 else 2
    case Finishing(a) => if a.Simulate().0 then 1 else 4
    case Cancelling(_) => 1
  }

  ghost function JobsMoves(actions: Actions, jobs: seq<Work>): nat {
    if jobs == [] then 0 else JobMoves(actions, jobs[0]) + JobsMoves(actions, jobs[1..])
  }

  ghost function Evaluations(jobs: seq<Work>): nat {
    if jobs == [] then 0 else (if jobs[0].Evaluation? then 1 else 0) + Evaluations(jobs[1..])
  }

  function Stages(clients: map<nat, Busy>): map<nat, nat> {
    map c | c in clients :: StageMoves(clients[c].stage)
  }

  function Turns(left: map<nat, nat>): map<nat, nat> {
    map c | c in left :: 1 + 7 * left[c]
  }

  ghost function MovesLeft(s: Crew): nat {
    JobsMoves(s.world.db.actions, s.jobs) + Total(Stages(s.world.clients)) + Total(Turns(s.left))
  }

  ghost predicate Descends(s': Crew, s: Crew) {
    || Evaluations(s'.jobs) < Evaluations(s.jobs)
    || (Evaluations(s'.jobs) == Evaluations(s.jobs) && MovesLeft(s') < MovesLeft(s))
  }

  // ----- Attempts once made stay made -----

  // No action is of a kind the service does not support, which would fail at every attempt.
  ghost predicate Supported(actions: Actions) {
    forall id | id in actions :: !actions[id].kind.OtherActionType?
  }

  ghost predicate Ready(w: World) {
    Sound(w) && Supported(w.db.actions)
  }

  ghost predicate SpentStay(actions: Actions, actions': Actions) {
    forall id | Spent(actions, id) :: Spent(actions', id)
  }

  lemma OfferedIsSpent(w: World, c: nat, at: int)
    requires Sound(w) && c in w.clients && OfferedAction(w.clients[c].stage, at).Some?
    ensures var a := OfferedAction(w.clients[c].stage, at).value;
            !Fresh(a) && a.id in w.db.actions && a.kind == w.db.actions[a.id].kind
  {
    assert StageOk(w.db, w.clients[c].since, w.clients[c].stage);
    hide StoreOk, ClientsOk;
  }

  lemma ActingIsSupported(db: Db, stage: Stage, at: int, c: Choice)
    requires Supported(db.actions) && stage.Acting?
    ensures Supported(Advanced(db, stage, at, c).0.actions)
  {
  }

  lemma NewIsSupported(db: Db, stage: Stage, at: int, c: Choice)
    requires Supported(db.actions) && OfferedAction(stage, at).None?
    ensures Supported(Advanced(db, stage, at, c).0.actions)
  {
    hide NewEvidence, NewIncident, NewAction, Write, Offered, Supported, Action.Simulate, Action.Finish;
    if stage.Merging? || stage.Moving? || stage.AttachingAction? || stage.AttachingEvidence? {
      Overtaking.OfferIsWritten(db, stage, at);
    } else if stage.Acting? {
      ActingIsSupported(db, stage, at, c);
    }
  }

  lemma StepKeepsReady(w: World, e: Event)
    requires Ready(w) && Can(w, e)
    ensures Ready(Next(w, e)) && SpentStay(w.db.actions, Next(w, e).db.actions)
  {
    StepIsSound(w, e);
    if e.Step? {
      var stage := w.clients[e.client].stage;
      StepOnActions(w.db, stage, e.at, e.choice);
      if OfferedAction(stage, e.at).Some? {
        OfferedIsSpent(w, e.client, e.at);
      } else {
        NewIsSupported(w.db, stage, e.at, e.choice);
      }
      hide Advanced, OfferedAction, Sound, Db.MayFind;
    } else {
      hide Sound;
    }
  }

  lemma {:induction false} EveryRunIsReady(events: seq<Event>)
    requires Records.CanRun(events)
    ensures Ready(Records.Run(events))
  {
    if events != [] {
      hide Ready, Can, Next;
      EveryRunIsReady(events[..|events| - 1]);
      StepKeepsReady(Records.Run(events[..|events| - 1]), events[|events| - 1]);
    }
  }

  // ----- Every move descends -----

  lemma {:induction false} JobsOnlyGetCheaper(actions: Actions, actions': Actions, jobs: seq<Work>)
    requires SpentStay(actions, actions')
    ensures JobsMoves(actions', jobs) <= JobsMoves(actions, jobs)
  {
    if jobs != [] {
      JobsOnlyGetCheaper(actions, actions', jobs[1..]);
    }
  }

  lemma {:induction false} OneMoreJob(actions: Actions, jobs: seq<Work>, job: Work)
    ensures JobsMoves(actions, jobs + [job]) == JobsMoves(actions, jobs) + JobMoves(actions, job)
    ensures Evaluations(jobs + [job]) == Evaluations(jobs) + if job.Evaluation? then 1 else 0
  {
    if jobs == [] {
      assert [] + [job] == [job];
    } else {
      OneMoreJob(actions, jobs[1..], job);
      assert (jobs + [job])[1..] == jobs[1..] + [job];
    }
  }

  function MovesOf(stage: Option<Stage>): nat {
    match stage
    case None => 0
    case Some(st) => StageMoves(st)
  }

  lemma PlacingCosts(clients: map<nat, Busy>, c: nat, stage: Option<Stage>, end: int)
    ensures Total(Stages(Placed(clients, c, stage, end))) + (if c in clients then StageMoves(clients[c].stage) else 0)
         == Total(Stages(clients)) + MovesOf(stage)
  {
    var m, m' := Stages(clients), Stages(Placed(clients, c, stage, end));
    TotalAfter(m, c, MovesOf(stage));
    if stage == None {
      assert m' == m - {c};
    } else {
      assert m' == m[c := MovesOf(stage)];
    }
  }

  lemma TurningCosts(left: map<nat, nat>, c: nat, n: nat)
    ensures Total(Turns(left[c := n])) + (if c in left then 1 + 7 * left[c] else 0) == Total(Turns(left)) + 1 + 7 * n
    ensures Total(Turns(left)) == Total(Turns(left - {c})) + if c in left then 1 + 7 * left[c] else 0
  {
    TotalAfter(Turns(left), c, 1 + 7 * n);
    assert Turns(left[c := n]) == Turns(left)[c := 1 + 7 * n];
    assert Turns(left - {c}) == Turns(left) - {c};
  }

  lemma BeginningCosts(w: World, job: Work, item: EvidenceInput)
    requires Sound(w) && !job.Evaluation?
    ensures var (db, stage) := Begun(w.db, RequestOf(job, item)); db == w.db && MovesOf(stage) < JobMoves(w.db.actions, job)
  {
    hide Sound;
  }

  lemma TakeDescends(s: Crew, m: Move)
    requires Ready(s.world) && m.Take? && CanMove(s, m)
    ensures Descends(Moved(s, m), s)
  {
    if m.live && !s.jobs[0].Evaluation? {
      BeginningCosts(s.world, s.jobs[0], m.item);
      var (db, stage) := Begun(s.world.db, RequestOf(s.jobs[0], m.item));
      PlacingCosts(s.world.clients, m.client, stage, m.end);
    }
    hide Ready, Total, Stages, Turns, Begun, RequestOf;
  }

  lemma TurnDescends(s: Crew, m: Move)
    requires m.Turn? && CanMove(s, m)
    ensures Descends(Moved(s, m), s)
  {
    TurningCosts(s.left, m.client, if s.left[m.client] == 0 then 0 else s.left[m.client] - 1);
    if s.left[m.client] > 0 {
      var (db, stage) := Begun(s.world.db, Detect(m.found));
      PlacingCosts(s.world.clients, m.client, stage, m.end);
    }
    hide Total, Stages, Turns, JobsMoves, Evaluations;
  }

  ghost predicate Cheapens(db: Db, stage: Stage, at: int, choice: Choice) {
    var (db', next) := Advanced(db, stage, at, choice);
    var job := Submission(stage, at, next);
    && (job.Some? ==> !job.value.Evaluation?)
    && MovesOf(next) + (if job.Some? then JobMoves(db'.actions, job.value) else 0) < StageMoves(stage)
  }

  lemma StartingCheapens(db: Db, since: int, stage: Stage, at: int, choice: Choice)
    requires stage.Starting? && StageOk(db, since, stage) && Supported(db.actions)
    ensures Cheapens(db, stage, at, choice)
  {
    hide IncidentsOk;
  }

  lemma FinishingCheapens(db: Db, since: int, stage: Stage, at: int, choice: Choice)
    requires stage.Finishing? && StageOk(db, since, stage)
    ensures Cheapens(db, stage, at, choice)
  {
    hide IncidentsOk;
  }

  lemma OthersCheapen(db: Db, stage: Stage, at: int, choice: Choice)
    requires !stage.Starting? && !stage.Finishing?
    ensures Cheapens(db, stage, at, choice)
  {
    hide NewEvidence, NewIncident, NewAction, Write, Action.Cancel;
  }

  // What a stage becomes and submits is cheaper than the stage.
  lemma StepCosts(w: World, c: nat, at: int, choice: Choice)
    requires Ready(w) && c in w.clients
    ensures Cheapens(w.db, w.clients[c].stage, at, choice)
  {
    var b := w.clients[c];
    assert StageOk(w.db, b.since, b.stage);
    hide StageOk, StoreOk, ClientsOk, Supported, Cheapens;
    if b.stage.Starting? {
      StartingCheapens(w.db, b.since, b.stage, at, choice);
    } else if b.stage.Finishing? {
      FinishingCheapens(w.db, b.since, b.stage, at, choice);
    } else {
      OthersCheapen(w.db, b.stage, at, choice);
    }
  }

  lemma StepDescends(s: Crew, e: Event)
    requires Ready(s.world) && e.Step? && Can(s.world, e)
    ensures Descends(Moved(s, Go(e)), s)
  {
    var w := s.world;
    var stage := w.clients[e.client].stage;
    StepCosts(w, e.client, e.at, e.choice);
    StepKeepsReady(w, e);
    var (db, next) := Advanced(w.db, stage, e.at, e.choice);
    var job := Submission(stage, e.at, next);
    PlacingCosts(w.clients, e.client, next, e.end);
    JobsOnlyGetCheaper(w.db.actions, db.actions, s.jobs);
    if job.Some? {
      OneMoreJob(db.actions, s.jobs, job.value);
    }
    hide Ready, Total, Stages, Turns, JobsMoves, Evaluations, Submission, Advanced, StageMoves, JobMoves, SpentStay, Can;
  }

  /** Every move takes a drain nearer to its end, whatever copies it writes. */
  lemma MoveDescends(s: Crew, m: Move)
    requires Ready(s.world) && CanMove(s, m)
    ensures Ready(Moved(s, m).world) && Descends(Moved(s, m), s)
  {
    hide Ready, Descends, Next, Can, Submission, Advanced;
    match m
    case Take(c, live, _, item, end) =>
      TakeDescends(s, m);
      if live && !s.jobs[0].Evaluation? {
        BeginKeepsReady(s.world, c, RequestOf(s.jobs[0], item), end);
      }
    case Turn(c, found, end) =>
      TurnDescends(s, m);
      BeginKeepsReady(s.world, c, Detect(found), end);
    case Go(e) =>
      StepKeepsReady(s.world, e);
      if e.Step? {
        StepDescends(s, e);
      } else {
        AbandonDescends(s, e);
      }
  }

  lemma BeginKeepsReady(w: World, c: nat, r: Request, end: int)
    requires Ready(w) && c !in w.clients && w.now <= end && (r.Detect? ==> r.anomaly.incidentId == "")
    ensures Ready(Next(w, Begin(c, r, end)))
  {
    hide Ready, Next;
    StepKeepsReady(w, Begin(c, r, end));
  }

  lemma AbandonDescends(s: Crew, e: Event)
    requires e.Abandon? && Can(s.world, e)
    ensures Descends(Moved(s, Go(e)), s)
  {
    PlacingCosts(s.world.clients, e.client, None, 0);
    hide Total, Stages, Turns, JobsMoves, Evaluations;
  }

  // ----- Every drain ends -----

  ghost predicate Drained(s: Crew) {
    s.jobs == [] && s.world.clients == map[] && s.left == map[]
  }

  ghost predicate Moves(s: Crew, s': Crew) {
    exists m :: CanMove(s, m) && s' == Moved(s, m)
  }

  lemma FreeClient(used: set<nat>) returns (c: nat)
    ensures c !in used
  {
    c := 0;
    var below: set<nat> := {};
    while c in used
      invariant below <= used && forall k: nat :: k in below <==> k < c
      decreases |used - below|
    {
      below := below + {c};
      c := c + 1;
    }
  }

  lemma ScanHasAnswer(db: Db, deviceId: string, signal: string, since: int) returns (found: Option<string>)
    ensures db.MayFind(deviceId, signal, since, found)
  {
    if id :| db.Mergeable(id, deviceId, signal, since) {
      found := Some(id);
    } else {
      found := None;
    }
  }

  /** Some move is possible exactly until nothing is left to do. */
  lemma MovesUntilDrained(s: Crew)
    ensures (exists m :: CanMove(s, m)) <==> !Drained(s)
  {
    var w := s.world;
    if c :| c in w.clients {
      var b := w.clients[c];
      var at := if w.now < b.since then b.since else w.now;
      var found := None;
      if b.stage.Detected? {
        found := ScanHasAnswer(w.db, b.stage.anomaly.deviceId, b.stage.anomaly.signal, at - TEN_MINUTES);
      }
      assert CanMove(s, Go(Step(c, at, Choice(found, ""), at)));
    } else if c :| c in s.left {
      assert CanMove(s, Turn(c, Overtaking.Finding(""), w.now));
    } else if s.jobs != [] {
      var c := FreeClient(w.clients.Keys + s.left.Keys);
      assert CanMove(s, Take(c, false, 0, EvidenceInput("", OperatorNote, "", "", ""), w.now));
    }
  }

  // A drain: from a state that interleaved calls may reach, a move as long as one is possible.
  ghost predicate IsDrain(run: nat -> Crew) {
    && Ready(run(0).world)
    && forall n: nat :: Moves(run(n), run(n + 1)) || (Drained(run(n)) && run(n + 1) == run(n))
  }

  /** However the workers' steps interleave, every drain comes to its end. */
  lemma EveryDrainEnds(run: nat -> Crew)
    requires IsDrain(run)
    ensures exists n :: Drained(run(n))
  {
    EndsFrom(run, 0);
  }

  lemma {:induction false} EndsFrom(run: nat -> Crew, n: nat)
    requires IsDrain(run) && Ready(run(n).world)
    ensures exists k :: Drained(run(k))
    decreases Evaluations(run(n).jobs), MovesLeft(run(n))
  {
    if !Drained(run(n)) {
      assert Moves(run(n), run(n + 1));
      var m :| CanMove(run(n), m) && run(n + 1) == Moved(run(n), m);
      MoveDescends(run(n), m);
      EndsFrom(run, n + 1);
    }
  }
}
