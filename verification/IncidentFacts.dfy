/**
 * Facts an incident record carries with it: true of every stored record and of every private
 * copy, whatever other calls did meanwhile, because they only mention the record itself and
 * parts of other records that never change.
 */
module IncidentFacts {
  import opened Basics
  import opened Domain

  type Anomalies = map<string, Anomaly>
  type Actions = map<string, Action>
  type EvidenceItems = map<string, Evidence>

  // The part of an anomaly fixed when it is stored.
  ghost predicate SameFinding(a: Anomaly, b: Anomaly) {
    a.id == b.id && a.deviceId == b.deviceId && a.signal == b.signal && a.severity == b.severity
  }

  ghost predicate AnomaliesGrow(before: Anomalies, after: Anomalies) {
    forall x | x in before :: x in after && SameFinding(before[x], after[x])
  }

  // The part of an action fixed when it is stored.
  ghost predicate SameRequest(a: Action, b: Action) {
    && a.id == b.id && a.incidentId == b.incidentId && a.kind == b.kind
    && a.maxAttempts == b.maxAttempts && a.idempotency == b.idempotency
  }

  ghost predicate ActionsGrow(before: Actions, after: Actions) {
    forall x | x in before :: x in after && SameRequest(before[x], after[x])
  }

  ghost predicate EvidenceGrows(before: EvidenceItems, after: EvidenceItems) {
    forall x | x in before :: x in after && before[x] == after[x]
  }

  ghost predicate ListsFindings(anomalies: Anomalies, inc: Incident) {
    && |inc.anomalyIds| > 0 && NoRepeats(inc.anomalyIds)
    && (forall x | x in inc.anomalyIds :: x in anomalies && anomalies[x].deviceId == inc.deviceId)
    && (forall x | x in inc.anomalyIds :: anomalies[x].signal == anomalies[inc.anomalyIds[0]].signal)
  }

  ghost predicate PeakSeverity(anomalies: Anomalies, inc: Incident)
    requires ListsFindings(anomalies, inc)
  {
    && (forall x | x in inc.anomalyIds :: anomalies[x].severity <= inc.severity)
    && (exists x | x in inc.anomalyIds :: anomalies[x].severity == inc.severity)
  }

  ghost predicate ListsOwn(actions: Actions, evidence: EvidenceItems, inc: Incident) {
    && (forall x | x in inc.actionIds :: x in actions && actions[x].incidentId == inc.id)
    && (forall x | x in inc.evidenceIds :: x in evidence && evidence[x].incidentId == inc.id)
  }

  // Closing is justified: resolved first, with evidence, at ordered times not after now.
  ghost predicate Justified(inc: Incident, now: int) {
    && inc.openedAt <= now
    && (inc.resolvedAt.Some? ==> inc.openedAt <= inc.resolvedAt.value <= now)
    && (inc.status == Resolved || inc.status == Closed ==> inc.resolvedAt.Some?)
    && (inc.status == Closed ==>
          inc.evidenceIds != [] && inc.closedAt.Some? && inc.resolvedAt.value <= inc.closedAt.value <= now)
  }

  // A device is named, and the status is one of the known ones.
  ghost predicate Known(inc: Incident) {
    inc.deviceId != "" && !inc.status.OtherIncidentStatus?
  }

  ghost predicate Good(anomalies: Anomalies, actions: Actions, evidence: EvidenceItems, now: int, inc: Incident) {
    && ListsFindings(anomalies, inc) && PeakSeverity(anomalies, inc)
    && ListsOwn(actions, evidence, inc) && Justified(inc, now) && Known(inc)
  }

  // The common signal of an incident's anomalies.
  ghost function SignalOf(anomalies: Anomalies, inc: Incident): string {
    if inc.anomalyIds != [] && inc.anomalyIds[0] in anomalies then anomalies[inc.anomalyIds[0]].signal else ""
  }

  /** The facts outlive every growth of the store. */
  lemma GoodIsStable(an: Anomalies, an': Anomalies, ac: Actions, ac': Actions, ev: EvidenceItems, ev': EvidenceItems,
                     now: int, now': int, inc: Incident)
    requires Good(an, ac, ev, now, inc)
    requires AnomaliesGrow(an, an') && ActionsGrow(ac, ac') && EvidenceGrows(ev, ev') && now <= now'
    ensures Good(an', ac', ev', now', inc) && SignalOf(an', inc) == SignalOf(an, inc)
  {
    assert inc.anomalyIds[0] in inc.anomalyIds;
    assert ListsFindings(an', inc);
    var x :| x in inc.anomalyIds && an[x].severity == inc.severity;
    assert an'[x].severity == inc.severity;
  }

  lemma GoodWhenNew(an: Anomalies, ac: Actions, ev: EvidenceItems, now: int, id: string, a: Anomaly, title: string)
    requires a.id in an && SameFinding(an[a.id], a)
    requires NewIncident(id, a.deviceId, title, a.severity, a.id, now).Ok?
    ensures Good(an, ac, ev, now, NewIncident(id, a.deviceId, title, a.severity, a.id, now).value)
    ensures SignalOf(an, NewIncident(id, a.deviceId, title, a.severity, a.id, now).value) == a.signal
  {
    var inc := NewIncident(id, a.deviceId, title, a.severity, a.id, now).value;
    assert a.id in inc.anomalyIds;
  }

  lemma GoodAfterAddAnomaly(an: Anomalies, ac: Actions, ev: EvidenceItems, now: int, inc: Incident, a: Anomaly)
    requires Good(an, ac, ev, now, inc)
    requires a.id in an && SameFinding(an[a.id], a)
    requires a.deviceId == inc.deviceId && a.signal == SignalOf(an, inc)
    ensures Good(an, ac, ev, now, inc.AddAnomaly(a.id, a.severity, now).Or(inc))
    ensures SignalOf(an, inc.AddAnomaly(a.id, a.severity, now).Or(inc)) == a.signal
  {
    var inc' := inc.AddAnomaly(a.id, a.severity, now).Or(inc);
    if inc' != inc {
      assert inc'.anomalyIds == inc.anomalyIds + [a.id];
      assert forall x :: x in inc'.anomalyIds <==> x in inc.anomalyIds || x == a.id;
      assert ListsFindings(an, inc');
      var x :| x in inc.anomalyIds && an[x].severity == inc.severity;
      assert an[x].severity == inc'.severity || an[a.id].severity == inc'.severity;
    }
  }

  lemma GoodAfterTransition(an: Anomalies, ac: Actions, ev: EvidenceItems, now: int, inc: Incident, to: IncidentStatus)
    requires Good(an, ac, ev, now, inc)
    requires to == Closed ==> inc.ReadyToClose()
    requires inc.Transition(to, now).Ok?
    ensures Good(an, ac, ev, now, inc.Transition(to, now).value)
    ensures SignalOf(an, inc.Transition(to, now).value) == SignalOf(an, inc)
  {
    var inc' := inc.Transition(to, now).value;
    assert ListsFindings(an, inc');
  }

  lemma GoodAfterAttachAction(an: Anomalies, ac: Actions, ev: EvidenceItems, now: int, inc: Incident, actionId: string)
    requires Good(an, ac, ev, now, inc)
    requires actionId in ac && ac[actionId].incidentId == inc.id
    ensures Good(an, ac, ev, now, inc.AttachAction(actionId, now).Or(inc))
    ensures SignalOf(an, inc.AttachAction(actionId, now).Or(inc)) == SignalOf(an, inc)
  {
    var inc' := inc.AttachAction(actionId, now).Or(inc);
    assert ListsFindings(an, inc');
  }

  lemma GoodAfterAttachEvidence(an: Anomalies, ac: Actions, ev: EvidenceItems, now: int, inc: Incident, evidenceId: string)
    requires Good(an, ac, ev, now, inc)
    requires evidenceId in ev && ev[evidenceId].incidentId == inc.id
    ensures Good(an, ac, ev, now, inc.AttachEvidence(evidenceId, now).Or(inc))
    ensures SignalOf(an, inc.AttachEvidence(evidenceId, now).Or(inc)) == SignalOf(an, inc)
  {
    var inc' := inc.AttachEvidence(evidenceId, now).Or(inc);
    assert ListsFindings(an, inc');
  }

  // ----- Actions -----

  // The attempt budget, as carried by every action record.
  ghost predicate WithinBudget(a: Action) {
    && 0 <= a.attempt <= a.maxAttempts && 1 <= a.maxAttempts
    && (a.status == Queued || a.status == Skipped ==> a.attempt == 0)
    && (a.status == Running || a.status == Succeeded || a.status == FailedAction ==> a.attempt >= 1)
    && (a.status == Succeeded || a.status == FailedAction ==> a.finishedAt.Some?)
  }

  /** Every operation on a private copy of an action keeps the budget and the request. */
  lemma BudgetIsKept(a: Action, now: int, success: bool, message: string)
    requires WithinBudget(a)
    ensures a.Start(now).Ok? ==>
              var b := a.Start(now).value;
              WithinBudget(b) && SameRequest(a, b) && b.status == Running && b.attempt == a.attempt + 1
    ensures a.status == Running ==> WithinBudget(a.Finish(success, message, now)) && SameRequest(a, a.Finish(success, message, now))
    ensures a.Cancel(now).Ok? ==> WithinBudget(a.Cancel(now).value) && SameRequest(a, a.Cancel(now).value)
  {
  }

  // The idempotency index is the inverse of "stored action -> its key".
  ghost predicate IndexInverts(actions: Actions, index: map<string, string>) {
    && (forall id | id in actions :: actions[id].id == id && actions[id].idempotency in index && index[actions[id].idempotency] == id)
    && (forall key | key in index :: index[key] in actions && actions[index[key]].idempotency == key)
  }

  /** A key belongs to at most one action, and to exactly the one the index names. */
  lemma IndexIsBijective(actions: Actions, index: map<string, string>)
    requires IndexInverts(actions, index)
    ensures forall key, id :: (key in index && index[key] == id) <==> (id in actions && actions[id].idempotency == key)
    ensures forall a, b | a in actions && b in actions && actions[a].idempotency == actions[b].idempotency :: a == b
  {
  }
}
