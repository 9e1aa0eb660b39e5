/** The job queue drains: handling jobs ends although handlers submit more, and what it leaves of each action. */
module Draining {
  import opened Domain
  import opened Calls
  import opened IncidentFacts
  import opened Invariant
  import opened Preservation
  import opened Evaluation
  import opened Runs
  import opened Answers

  ghost function Evaluations(work: seq<Work>): nat {
    if work == [] then 0
    else Evaluations(work[..|work| - 1]) + if work[|work| - 1].Evaluation? then 1 else 0
  }

  ghost function AttemptsLeft(a: Action): nat {
    if a.attempt <= a.maxAttempts then a.maxAttempts - a.attempt else 0
  }

  ghost function TotalAttemptsLeft(actions: Actions): nat
    decreases |actions|
  {
    if actions == map[] then 0
    else
      var id :| id in actions;
      AttemptsLeft(actions[id]) + TotalAttemptsLeft(actions - {id})
  }

  lemma {:induction false} TotalSplits(actions: Actions, id: string)
    requires id in actions
    ensures TotalAttemptsLeft(actions) == AttemptsLeft(actions[id]) + TotalAttemptsLeft(actions - {id})
    decreases |actions|
  {
    var first :| first in actions && TotalAttemptsLeft(actions) == AttemptsLeft(actions[first]) + TotalAttemptsLeft(actions - {first});
    if first != id {
      TotalSplits(actions - {first}, id);
      TotalSplits(actions - {id}, first);
      assert actions - {first} - {id} == actions - {id} - {first};
    }
  }

  lemma TotalAfter(actions: Actions, id: string, a: Action)
    requires id in actions
    ensures TotalAttemptsLeft(actions[id := a]) + AttemptsLeft(actions[id]) == TotalAttemptsLeft(actions) + AttemptsLeft(a)
  {
    TotalSplits(actions, id);
    TotalSplits(actions[id := a], id);
    assert actions[id := a] - {id} == actions - {id};
  }

  lemma {:induction false} EvaluationsAdd(a: seq<Work>, b: seq<Work>)
    ensures Evaluations(a + b) == Evaluations(a) + Evaluations(b)
  {
    if b == [] {
      assert a + b == a;
    } else {
      EvaluationsAdd(a, b[..|b| - 1]);
      assert (a + b)[..|a + b| - 1] == a + b[..|b| - 1];
    }
  }

  lemma {:induction false} NoEvaluations(a: seq<Work>)
    requires forall k | 0 <= k < |a| :: !a[k].Evaluation?
    ensures Evaluations(a) == 0
  {
    if a != [] {
      NoEvaluations(a[..|a| - 1]);
    }
  }

  // The work not yet done: buffered or in a worker's hand.
  ghost function Pending(s: State): seq<Work> {
    s.jobs + s.inHand
  }

  // The measure of a draining queue, compared lexicographically.
  datatype Measure = Measure(evaluations: nat, attempts: nat, pending: nat, buffered: nat)

  ghost function Remaining(s: State): Measure {
    Measure(Evaluations(Pending(s)), TotalAttemptsLeft(s.db.actions), |Pending(s)|, |s.jobs|)
  }

  ghost predicate Descends(a: Measure, b: Measure) {
    || a.evaluations < b.evaluations
    || (a.evaluations == b.evaluations && a.attempts < b.attempts)
    || (a.evaluations == b.evaluations && a.attempts == b.attempts && a.pending < b.pending)
    || (a.evaluations == b.evaluations && a.attempts == b.attempts && a.pending == b.pending && a.buffered < b.buffered)
  }

  lemma ReceivedIs(s: State, act: Act)
    requires s.jobs != [] && act.Receive?
    ensures Effect(s, act) == s.(jobs := s.jobs[1..], inHand := s.inHand + [s.jobs[0]])
  {
  }

  lemma ReceiveDescends(s: State)
    requires s.jobs != []
    ensures Descends(Remaining(Effect(s, Receive)), Remaining(s))
  {
    ReceivedIs(s, Receive);
    hide Effect, TotalAttemptsLeft, Evaluations;
    ReceivingMoves(s.jobs, s.inHand);
  }

  lemma ReceivingMoves(jobs: seq<Work>, inHand: seq<Work>)
    requires jobs != []
    ensures Evaluations(jobs[1..] + (inHand + [jobs[0]])) == Evaluations(jobs + inHand)
  {
    hide Evaluations;
    var first := [jobs[0]];
    assert jobs == first + jobs[1..];
    EvaluationsAdd(jobs[1..], inHand + first);
    EvaluationsAdd(inHand, first);
    EvaluationsAdd(first + jobs[1..], inHand);
    EvaluationsAdd(first, jobs[1..]);
  }

  lemma WithoutCounts(s: State, slot: nat)
    requires slot < |s.inHand|
    ensures var s1 := s.(inHand := Without(s.inHand, slot));
            && Evaluations(Pending(s)) == Evaluations(Pending(s1)) + (if s.inHand[slot].Evaluation? then 1 else 0)
            && |Pending(s1)| == |Pending(s)| - 1
  {
    var work := [s.inHand[slot]];
    var front, back := s.inHand[..slot], s.inHand[slot + 1..];
    assert s.inHand == front + work + back;
    EvaluationsAdd(s.jobs, front + work + back);
    EvaluationsAdd(front + work, back);
    EvaluationsAdd(front, work);
    EvaluationsAdd(s.jobs, front + back);
    EvaluationsAdd(front, back);
    assert Evaluations(work) == if s.inHand[slot].Evaluation? then 1 else 0 by { assert work[..0] == []; }
  }

  // What the handler of a job adds to the queue and takes from the attempts.
  lemma HandlerCosts(s: State, act: Act, end: int)
    requires Base(s) && Fits(s, act, end)
    requires act.EvaluateTelemetry? || act.ExecuteAction? || act.RollupEvidence?
    ensures var s' := Effect(s, act);
            && Evaluations(Pending(s')) == Evaluations(Pending(s))
            && (act.EvaluateTelemetry?
                || (s'.jobs == s.jobs && s'.inHand == s.inHand && TotalAttemptsLeft(s'.db.actions) == TotalAttemptsLeft(s.db.actions))
                || TotalAttemptsLeft(s'.db.actions) < TotalAttemptsLeft(s.db.actions))
  {
    hide Base, TotalAttemptsLeft;
    if act.EvaluateTelemetry? {
      EvaluateKeeps(s, act, end);
      AddedWork(s, AfterEvaluate(s, act));
    } else if act.RollupEvidence? {
      RollupFrame(s, act.id, act.at, act.attached);
    } else if act.id in s.db.actions {
      var a := s.db.actions[act.id];
      ActionIsOk(s, act.id);
      Executed(a, act.at, act.finished);
      ExecuteIs(s, act.id, act.at, act.finished);
      hide AfterExecute;
      if a.Start(act.at).Ok? {
        TotalAfter(s.db.actions, act.id, FinishedRun(a, act.at, act.finished));
        AddedWork(s, Effect(s, act));
      }
    }
  }

  lemma AddedWork(s: State, s': State)
    requires SameEvaluations(s, s')
    ensures Evaluations(Pending(s')) == Evaluations(Pending(s))
  {
    var added := s'.jobs[|s.jobs|..];
    assert s'.jobs == s.jobs + added;
    NoEvaluations(added);
    EvaluationsAdd(s'.jobs, s.inHand);
    EvaluationsAdd(s.jobs, s.inHand);
    EvaluationsAdd(s.jobs, added);
  }

  lemma SpentDescends(before: Measure, after: Measure, taken: Work)
    requires after.evaluations + (if taken.Evaluation? then 1 else 0) == before.evaluations
    requires taken.Evaluation? || after.attempts < before.attempts || (after.attempts == before.attempts && after.pending < before.pending)
    ensures Descends(after, before)
  {
  }

  /** Handling any job in hand descends, whatever it submits. */
  lemma HandleDescends(s: State, slot: nat, handler: Act, end: int)
    requires Base(s) && Fits(s, Handle(slot, handler), end)
    ensures Descends(Remaining(Effect(s, Handle(slot, handler)).(now := end)), Remaining(s))
  {
    var s1 := s.(inHand := Without(s.inHand, slot));
    var s' := Effect(s1, handler);
    assert Effect(s, Handle(slot, handler)) == s';
    TakenFromHand(s, slot);
    WithoutCounts(s, slot);
    assert Serves(handler, s.inHand[slot]) && Fits(s1, handler, end);
    assert s.inHand[slot].Evaluation? <==> handler.EvaluateTelemetry?;
    hide Base, Fits, Effect, TotalAttemptsLeft, Evaluations, Descends;
    HandlerCosts(s1, handler, end);
    SpentDescends(Remaining(s), Remaining(s'), s.inHand[slot]);
  }

  // ----- What a drained queue leaves -----

  // How an action that was neither cancelled nor refused by the queue ends.
  ghost predicate RanToItsEnd(a: Action) {
    if a.kind != RestartAgent then a.status == Succeeded && a.attempt == 1
    else if a.maxAttempts >= 2 then a.status == Succeeded && a.attempt == 2
    else a.status == FailedAction && a.attempt == 1
  }

  /** With no job left, every action was cancelled while queued, was refused, or ran to its end. */
  lemma DrainedOutcome(s: State, id: string)
    requires Inv(s) && s.jobs == [] && s.inHand == [] && id in s.db.actions
    ensures var a := s.db.actions[id]; a.status == Skipped || Response(id) in s.refused || RanToItsEnd(a)
  {
    ActionIsOk(s, id);
    hide Base;
  }

  /** Whatever calls are mixed in, and however often the action is executed directly, the
      outcome of a run that ends with a drained queue is the same. */
  lemma RetryOutcome(s: State, calls: seq<Call>, id: string)
    requires Initial(s) && CanRun(s, calls)
    requires var s' := Run(s, calls);
             s'.jobs == [] && s'.inHand == [] && id in s'.db.actions && s'.db.actions[id].status != Skipped && Response(id) !in s'.refused
    ensures RanToItsEnd(Run(s, calls).db.actions[id])
  {
    InitialIsOk(s);
    RunKeeps(s, calls);
    DrainedOutcome(Run(s, calls), id);
  }

  // ----- In terms of what was asked for -----

  // How an action asked for with a kind and a number of attempts ends, unless it is cancelled or refused.
  ghost predicate EndsAsAsked(a: Action, input: ActionInput) {
    && a.kind == input.kind && a.incidentId == input.incidentId && a.idempotency == input.idempotency
    && if input.kind != RestartAgent then a.status == Succeeded && a.attempt == 1
       else if input.maxAttempts <= 1 then a.status == FailedAction && a.attempt == 1
       else a.status == Succeeded && a.attempt == 2
  }

  lemma CreatedAsAsked(s: State, input: ActionInput, at: int, attached: int)
    requires input.id !in s.db.actions && input.id in AfterCreateAction(s, input, at, attached).db.actions
    ensures input.incidentId in s.db.incidents
    ensures AfterCreateAction(s, input, at, attached).db.actions[input.id] == ActionFor(input, s.db.incidents[input.incidentId].deviceId, at)
  {
    SubmitKeepsRecords();
    hide Submit;
  }

  /** An action created at any point of a run that ends with a drained queue was cancelled, was refused,
      or ends as its request asked: a restart succeeds at its second attempt if two are allowed. */
  lemma RequestOutcome(s: State, calls: seq<Call>, n: nat)
    requires Initial(s) && CanRun(s, calls) && n < |calls| && calls[n].act.CreateAction?
    requires var id := calls[n].act.action.id; id !in Run(s, calls[..n]).db.actions && id in Run(s, calls[..n + 1]).db.actions
    requires Run(s, calls).jobs == [] && Run(s, calls).inHand == []
    ensures var input, s' := calls[n].act.action, Run(s, calls);
            && input.id in s'.db.actions
            && var a := s'.db.actions[input.id]; a.status == Skipped || Response(input.id) in s'.refused || EndsAsAsked(a, input)
  {
    var input := calls[n].act.action;
    var before, after := Run(s, calls[..n]), Run(s, calls[..n + 1]);
    LastOf(s, calls, n);
    hide Run, CanRun, Apply, Inv, Evolves, EndsAsAsked, ActionFor, Initial;
    InitialIsOk(s);
    RunInTwo(s, calls, n + 1);
    var deviceId := CreatedByCall(before, calls[n]);
    RunKeeps(s, calls[..n + 1]);
    RunKeeps(after, calls[n + 1..]);
    DrainedOnAsked(after, Run(s, calls), input, deviceId, calls[n].act.at);
  }

  lemma LastOf(s: State, calls: seq<Call>, n: nat)
    requires n < |calls|
    ensures Run(s, calls[..n + 1]) == Apply(Run(s, calls[..n]), calls[n])
  {
    assert calls[..n + 1][..n] == calls[..n];
  }

  lemma CreatedByCall(s: State, call: Call) returns (deviceId: string)
    requires call.act.CreateAction? && call.act.action.id !in s.db.actions && call.act.action.id in Apply(s, call).db.actions
    ensures Apply(s, call).db.actions[call.act.action.id] == ActionFor(call.act.action, deviceId, call.act.at)
  {
    hide AfterCreateAction, ActionFor;
    CreatedAsAsked(s, call.act.action, call.act.at, call.act.attached);
    deviceId := s.db.incidents[call.act.action.incidentId].deviceId;
  }

  lemma DrainedOnAsked(after: State, s': State, input: ActionInput, deviceId: string, at: int)
    requires Inv(s') && Evolves(after, s') && s'.jobs == [] && s'.inHand == []
    requires input.id in after.db.actions && after.db.actions[input.id] == ActionFor(input, deviceId, at)
    ensures input.id in s'.db.actions
    ensures var a := s'.db.actions[input.id]; a.status == Skipped || Response(input.id) in s'.refused || EndsAsAsked(a, input)
  {
    hide Inv;
    assert ActionEvolves(after.db.actions[input.id], s'.db.actions[input.id]);
    DrainedOutcome(s', input.id);
  }
}
