/**
 * What the missing version check of actions costs: a finished action changes exactly when it is
 * written from a copy another client has overtaken, and a run shows a cancelled action executed.
 */
module Executions {
  import opened Basics
  import opened Domain
  import opened Store
  import opened IncidentFacts
  import opened Invariant
  import opened Records
  import opened Overtaking

  // The action a stage offers to the store, if it gets that far.
  function OfferedAction(stage: Stage, at: int): Option<Action> {
    match stage
    case Starting(a) => Made(a.Start(at))
    case Finishing(a) => Some(a.Finish(a.Simulate().0, a.Simulate().1, at))
    case Cancelling(a) => Made(a.Cancel(at))
    case _ => None
  }

  function Made(r: Result<Action>): Option<Action> {
    match r
    case Ok(a) => Some(a)
    case Err(_) => None
  }

  lemma OfferOf(stage: Stage, at: int)
    requires OfferedAction(stage, at).Some?
    ensures HoldsAction(stage) && SameRequest(stage.action, OfferedAction(stage, at).value)
    ensures stage.action.status == Running || stage.Starting? || stage.Cancelling? ==> ActionEvolves(stage.action, OfferedAction(stage, at).value)
    ensures stage.Starting? ==> stage.action.status == Queued || stage.action.status == FailedAction
    ensures stage.Cancelling? ==> stage.action.status == Queued
  {
  }

  ghost predicate OnActions(actions: Actions, actions': Actions, offered: Option<Action>) {
    if offered.Some? && offered.value.id in actions then actions' == actions[offered.value.id := offered.value]
    else forall id | id in actions :: id in actions' && actions'[id] == actions[id]
  }

  lemma HoldingStepOnActions(db: Db, stage: Stage, at: int, c: Choice)
    requires HoldsAction(stage)
    ensures OnActions(db.actions, Advanced(db, stage, at, c).0.actions, OfferedAction(stage, at))
  {
    hide Action.Start, Action.Finish, Action.Simulate, Action.Cancel;
    if OfferedAction(stage, at).Some? {
      OfferOf(stage, at);
    }
  }

  // What a step does to the stored actions: it writes the one offered, or adds a new one.
  lemma StepOnActions(db: Db, stage: Stage, at: int, c: Choice)
    ensures OnActions(db.actions, Advanced(db, stage, at, c).0.actions, OfferedAction(stage, at))
  {
    hide NewAction, NewEvidence, NewIncident, Write;
    if stage.Merging? || stage.Moving? || stage.AttachingAction? || stage.AttachingEvidence? {
      OfferIsWritten(db, stage, at);
    } else if HoldsAction(stage) {
      hide Advanced, OfferedAction;
      HoldingStepOnActions(db, stage, at, c);
    }
  }

  lemma HeldActionIsOk(w: World, c: nat)
    requires Sound(w) && c in w.clients && HoldsAction(w.clients[c].stage)
    ensures w.clients[c].stage.action.id in w.db.actions
    ensures w.clients[c].stage.Finishing? ==> w.clients[c].stage.action.status == Running
    ensures forall id | id in w.db.actions :: w.db.actions[id].id == id
  {
    hide IncidentsOk, WithinBudget;
    assert StageOk(w.db, w.clients[c].since, w.clients[c].stage);
  }

  predicate Over(a: Action) {
    a.status == Succeeded || a.status == Skipped
  }

  // The step writes over a stored action from an overtaken copy, and not by chance the same record.
  ghost predicate ReplacesAction(w: World, e: Event, id: string) {
    && e.Step? && e.client in w.clients && id in w.db.actions
    && var stage := w.clients[e.client].stage; var offered := OfferedAction(stage, e.at);
       && offered.Some? && offered.value.id == id
       && stage.action != w.db.actions[id] && offered.value != w.db.actions[id]
  }

  /** One step changes a succeeded or cancelled action exactly when it writes it from a copy another client has overtaken. */
  lemma FinishedChangesExactlyWhenReplaced(w: World, e: Event, id: string)
    requires Sound(w) && Can(w, e) && id in w.db.actions && Over(w.db.actions[id])
    ensures id in Next(w, e).db.actions
    ensures Next(w, e).db.actions[id] != w.db.actions[id] <==> ReplacesAction(w, e, id)
  {
    if e.Step? {
      var stage := w.clients[e.client].stage;
      StepOnActions(w.db, stage, e.at, e.choice);
      if OfferedAction(stage, e.at).Some? {
        OfferOf(stage, e.at);
        HeldActionIsOk(w, e.client);
      }
      hide Advanced, OfferedAction, Sound, Db.MayFind;
    } else {
      hide Sound, Db.MayFind;
    }
  }

  // The step writes an action from a copy another client has overtaken.
  ghost predicate OvertakenAction(w: World, e: Event) {
    && e.Step? && e.client in w.clients
    && var stage := w.clients[e.client].stage;
       OfferedAction(stage, e.at).Some? && (stage.action.id !in w.db.actions || w.db.actions[stage.action.id] != stage.action)
  }

  ghost predicate NoneOvertakenAction(events: seq<Event>) {
    events == [] || (NoneOvertakenAction(events[..|events| - 1]) && !OvertakenAction(Run(events[..|events| - 1]), events[|events| - 1]))
  }

  lemma EvolvesToItself(actions: Actions)
    ensures forall id | id in actions :: ActionEvolves(actions[id], actions[id])
  {
  }

  lemma OfferEvolves(w: World, e: Event)
    requires Sound(w) && Can(w, e) && !OvertakenAction(w, e) && e.Step?
    ensures var offered := OfferedAction(w.clients[e.client].stage, e.at);
            offered.Some? ==> offered.value.id in w.db.actions && ActionEvolves(w.db.actions[offered.value.id], offered.value)
  {
    var stage := w.clients[e.client].stage;
    if OfferedAction(stage, e.at).Some? {
      OfferOf(stage, e.at);
      HeldActionIsOk(w, e.client);
    }
    hide OfferedAction, Sound, Db.MayFind;
  }

  lemma WriteEvolves(actions: Actions, a: Action)
    requires a.id in actions && ActionEvolves(actions[a.id], a)
    ensures ActionsEvolve(actions, actions[a.id := a])
  {
    EvolvesToItself(actions);
    hide ActionEvolves;
  }

  lemma KeptEvolve(actions: Actions, actions': Actions)
    requires forall id | id in actions :: id in actions' && actions'[id] == actions[id]
    ensures ActionsEvolve(actions, actions')
  {
    EvolvesToItself(actions);
    hide ActionEvolves;
  }

  lemma StepEvolvesActions(w: World, e: Event)
    requires Sound(w) && Can(w, e) && !OvertakenAction(w, e)
    ensures ActionsEvolve(w.db.actions, Next(w, e).db.actions)
  {
    if e.Step? {
      var offered := OfferedAction(w.clients[e.client].stage, e.at);
      StepOnActions(w.db, w.clients[e.client].stage, e.at, e.choice);
      OfferEvolves(w, e);
      hide Advanced, OfferedAction, OvertakenAction, Sound, ActionsEvolve, Db.MayFind;
      if offered.Some? {
        WriteEvolves(w.db.actions, offered.value);
      } else {
        KeptEvolve(w.db.actions, Next(w, e).db.actions);
      }
    } else {
      hide ActionsEvolve, Sound;
      KeptEvolve(w.db.actions, Next(w, e).db.actions);
    }
  }

  /** Over an interleaved run in which no action is written from an overtaken copy, actions only go
      forward: attempts never fall, and succeeded and cancelled ones do not change. */
  lemma {:induction false} ActionsGoForward(events: seq<Event>, n: nat)
    requires CanRun(events) && NoneOvertakenAction(events) && n <= |events|
    ensures ActionsEvolve(Run(events[..n]).db.actions, Run(events).db.actions)
    decreases |events|
  {
    hide Can, Next, OvertakenAction, Sound;
    if n == |events| {
      assert events[..n] == events;
    } else {
      var front := events[..|events| - 1];
      assert front[..n] == events[..n];
      ActionsGoForward(front, n);
      EveryRunIsSound(front);
      StepEvolvesActions(Run(front), events[|events| - 1]);
    }
  }

  // ----- A cancelled action that runs -----

  const REQUEST := Calls.ActionInput("x", "i", Notify, 1, "k", "r")

  // Action x is created on incident i.
  const QUEUED: seq<Event> := [Begin(1, Respond(REQUEST), 1), Step(1, 1, MISSED, 1), Step(1, 1, MISSED, 1)]

  // One call executes it, from a copy read before another cancels it.
  const RACED: seq<Event> := [
    Begin(1, Execute("x"), 1), Begin(2, Cancel("x"), 1),
    Step(2, 1, MISSED, 1), Step(1, 1, MISSED, 1), Step(1, 1, MISSED, 1)]

  function NewX(): Action {
    Action("x", "i", "d", Notify, Queued, 0, 1, "k", "r", "", 1, 1, None)
  }

  function CancelledX(): Action {
    NewX().(status := Skipped, result := "cancelled by operator")
  }

  function RunningX(): Action {
    NewX().(status := Running, attempt := 1)
  }

  function DoneX(): Action {
    RunningX().(status := Succeeded, result := "notification delivered", finishedAt := Some(1))
  }

  function ActingIncident(): Incident {
    OpenedIncident().(actionIds := ["x"], version := 2)
  }

  function WithX(x: Action): Db {
    AfterOpened().db.(actions := map["x" := x], idempotency := map["k" := "x"], incidents := map["i" := ActingIncident()])
  }

  function WhileActing(): World {
    World(AfterOpened().db, map[1 := Busy(Acting(OpenedIncident(), REQUEST), 1)], 1)
  }

  function WhileQueueing(): World {
    World(WithX(NewX()).(incidents := AfterOpened().db.incidents), map[1 := Busy(AttachingAction(OpenedIncident(), "x"), 1)], 1)
  }

  function AfterQueued(): World {
    World(WithX(NewX()), map[], 1)
  }

  function WhileStarting(): World {
    World(WithX(NewX()), map[1 := Busy(Starting(NewX()), 1)], 1)
  }

  function WhileRacing(): World {
    World(WithX(NewX()), map[1 := Busy(Starting(NewX()), 1), 2 := Busy(Cancelling(NewX()), 1)], 1)
  }

  function AfterCancelled(): World {
    World(WithX(CancelledX()), map[1 := Busy(Starting(NewX()), 1)], 1)
  }

  function WhileFinishing(): World {
    World(WithX(RunningX()), map[1 := Busy(Finishing(RunningX()), 1)], 1)
  }

  function AfterRaced(): World {
    World(WithX(DoneX()), map[], 1)
  }

  lemma ActionIsQueued()
    ensures Can(AfterOpened(), QUEUED[0]) && Next(AfterOpened(), QUEUED[0]) == WhileActing()
    ensures Can(WhileActing(), QUEUED[1]) && Next(WhileActing(), QUEUED[1]) == WhileQueueing()
  {
    hide TrimSpace;
  }

  lemma ActionIsAttached()
    ensures Can(WhileQueueing(), QUEUED[2]) && Next(WhileQueueing(), QUEUED[2]) == AfterQueued()
  {
    assert [] + ["x"] == ["x"];
    assert OpenedIncident().AttachAction("x", 1) == Ok(ActingIncident());
    hide Incident.AttachAction, TrimSpace;
  }

  lemma QueuedRun()
    ensures Leads(AfterOpened(), QUEUED, AfterQueued())
  {
    ActionIsQueued();
    ActionIsAttached();
    hide Can, Next, AfterOpened, WhileActing, WhileQueueing, AfterQueued;
    assert Leads(WhileQueueing(), QUEUED[2..], AfterQueued());
    assert Leads(WhileActing(), QUEUED[1..], AfterQueued());
  }

  lemma BothRead()
    ensures Can(AfterQueued(), RACED[0]) && Next(AfterQueued(), RACED[0]) == WhileStarting()
    ensures Can(WhileStarting(), RACED[1]) && Next(WhileStarting(), RACED[1]) == WhileRacing()
  {
    hide ActingIncident, AfterOpened;
  }

  lemma XIsWritten(x: Action, y: Action)
    requires y.id == "x"
    ensures WithX(x).UpdateAction(y) == Ok(WithX(y))
  {
    hide AfterOpened, ActingIncident;
    assert WithX(x).actions[y.id := y] == map["x" := y];
  }

  lemma OneCancels()
    ensures Can(WhileRacing(), RACED[2]) && Next(WhileRacing(), RACED[2]) == AfterCancelled()
  {
    XIsWritten(NewX(), CancelledX());
    assert WhileRacing().clients - {2} == AfterCancelled().clients;
    hide WithX, Db.UpdateAction;
  }

  lemma OtherStarts()
    ensures Can(AfterCancelled(), RACED[3]) && Next(AfterCancelled(), RACED[3]) == WhileFinishing()
  {
    XIsWritten(CancelledX(), RunningX());
    hide WithX, Db.UpdateAction;
  }

  lemma OtherFinishes()
    ensures Can(WhileFinishing(), RACED[4]) && Next(WhileFinishing(), RACED[4]) == AfterRaced()
  {
    XIsWritten(RunningX(), DoneX());
    assert WhileFinishing().clients - {1} == map[];
    hide WithX, Db.UpdateAction;
  }

  lemma RacedRun()
    ensures Leads(AfterQueued(), RACED[..3], AfterCancelled()) && Leads(AfterCancelled(), RACED[3..], AfterRaced())
  {
    var first := RACED[..3];
    BothRead();
    OneCancels();
    OtherStarts();
    OtherFinishes();
    hide Can, Next, AfterQueued, WhileStarting, WhileRacing, AfterCancelled, WhileFinishing, AfterRaced;
    assert Leads(WhileFinishing(), RACED[4..], AfterRaced());
    assert Leads(AfterCancelled(), RACED[3..], AfterRaced());
    assert Leads(WhileRacing(), first[2..], AfterCancelled());
    assert Leads(WhileStarting(), first[1..], AfterCancelled());
  }

  /** An action that has been cancelled runs and ends as succeeded: it is executed from a copy read before. */
  lemma CancelledMayRun()
    ensures var events := OPENED + QUEUED + RACED[..3];
            && CanRun(events + RACED[3..])
            && "x" in Run(events).db.actions && Run(events).db.actions["x"].status == Skipped
            && "x" in Run(events + RACED[3..]).db.actions && Run(events + RACED[3..]).db.actions["x"].status == Succeeded
  {
    OpenedRun();
    QueuedRun();
    RacedRun();
    hide CanRun, Run, Leads, TrimSpace;
    LeadsOn(OPENED, QUEUED, AfterQueued());
    LeadsOn(OPENED + QUEUED, RACED[..3], AfterCancelled());
    LeadsOn(OPENED + QUEUED + RACED[..3], RACED[3..], AfterRaced());
  }
}
