/**
 * What the missing version check of incidents costs: the links stay whole exactly as long as no
 * write misses an anomaly the stored record lists, incidents only gain and closed ones stay as
 * they are as long as every write starts from the record that is still stored, and two runs show
 * what a write of an overtaken copy can undo.
 */
module Overtaking {
  import opened Basics
  import opened Domain
  import opened Store
  import opened IncidentFacts
  import opened Linkage
  import opened Invariant
  import opened Records

  // The step writes an incident from a copy another client has overtaken.
  ghost predicate Overtaken(w: World, e: Event) {
    && e.Step? && e.client in w.clients
    && var stage := w.clients[e.client].stage;
       Offered(stage, e.at).Some? && (stage.copy.id !in w.db.incidents || w.db.incidents[stage.copy.id] != stage.copy)
  }

  ghost predicate NoneOvertaken(events: seq<Event>) {
    events == [] || (NoneOvertaken(events[..|events| - 1]) && !Overtaken(Run(events[..|events| - 1]), events[|events| - 1]))
  }

  // ----- Incidents only gain -----

  lemma OfferedEvolves(stage: Stage, at: int)
    requires Offered(stage, at).Some?
    ensures IncidentEvolves(stage.copy, Offered(stage, at).value)
  {
  }

  // No stored incident is changed but the one the stage offers, if any.
  ghost predicate WritesOnly(before: Incidents, after: Incidents, offered: Option<Incident>) {
    forall j | j in before :: j in after && (after[j] == before[j] || (offered == Some(after[j]) && after[j].id == j))
  }

  lemma AdvancedWritesOnly(db: Db, stage: Stage, at: int, c: Choice)
    ensures WritesOnly(db.incidents, Advanced(db, stage, at, c).0.incidents, Offered(stage, at))
  {
    hide NewIncident, NewAction, NewEvidence, Action.Start, Action.Finish, Action.Simulate, Action.Cancel,
         Incident.AddAnomaly, Incident.Transition, Incident.AttachAction, Incident.AttachEvidence;
    match stage
    case Opening(a) =>
    case Merging(_, _) => OfferIsWritten(db, stage, at);
    case Moving(_, _) => OfferIsWritten(db, stage, at);
    case AttachingAction(_, _) => OfferIsWritten(db, stage, at);
    case AttachingEvidence(_, _) => OfferIsWritten(db, stage, at);
    case _ =>
  }

  lemma OfferIsWritten(db: Db, stage: Stage, at: int)
    ensures Write(db, stage, at).incidents
         == if Offered(stage, at).Some? && Offered(stage, at).value.id in db.incidents then db.incidents[Offered(stage, at).value.id := Offered(stage, at).value] else db.incidents
    ensures Write(db, stage, at) == db.(incidents := Write(db, stage, at).incidents)
  {
    hide Offered;
  }

  lemma StepOnlyGains(w: World, e: Event)
    requires Can(w, e) && !Overtaken(w, e)
    ensures IncidentsEvolve(w.db.incidents, Next(w, e).db.incidents)
  {
    hide Offered, Advanced, Db.MayFind;
    if e.Step? {
      var stage := w.clients[e.client].stage;
      AdvancedWritesOnly(w.db, stage, e.at, e.choice);
      if Offered(stage, e.at).Some? {
        OfferedEvolves(stage, e.at);
      }
    }
  }

  /** Over a run in which no copy is overtaken an incident only gains, and once closed never changes. */
  lemma {:induction false} IncidentsOnlyGain(events: seq<Event>, n: nat)
    requires CanRun(events) && NoneOvertaken(events) && n <= |events|
    ensures IncidentsEvolve(Run(events[..n]).db.incidents, Run(events).db.incidents)
    decreases |events|
  {
    hide Can, Next, Overtaken;
    if n == |events| {
      assert events[..n] == events;
    } else {
      var front := events[..|events| - 1];
      assert front[..n] == events[..n];
      IncidentsOnlyGain(front, n);
      StepOnlyGains(Run(front), events[|events| - 1]);
    }
  }

  // The step writes over a stored incident from an overtaken copy, and not by chance the same record.
  ghost predicate Replaces(w: World, e: Event, i: string) {
    && e.Step? && e.client in w.clients && i in w.db.incidents
    && var stage := w.clients[e.client].stage;
       && Offered(stage, e.at).Some? && Offered(stage, e.at).value.id == i
       && stage.copy != w.db.incidents[i] && Offered(stage, e.at).value != w.db.incidents[i]
  }

  /** One step changes a closed incident exactly when it writes it from a copy another client has overtaken. */
  lemma ClosedChangesExactlyWhenReplaced(w: World, e: Event, i: string)
    requires Can(w, e) && i in w.db.incidents && w.db.incidents[i].status == Closed
    ensures i in Next(w, e).db.incidents
    ensures Next(w, e).db.incidents[i] != w.db.incidents[i] <==> Replaces(w, e, i)
  {
    hide Offered, Db.MayFind;
    if e.Step? {
      var stage := w.clients[e.client].stage;
      AdvancedWritesOnly(w.db, stage, e.at, e.choice);
      if Offered(stage, e.at).Some? {
        OfferedEvolves(stage, e.at);
        OfferingIsWriting(w.db, stage, e.at, e.choice);
      }
      hide Advanced;
    }
  }

  lemma OfferingIsWriting(db: Db, stage: Stage, at: int, c: Choice)
    requires Offered(stage, at).Some?
    ensures Advanced(db, stage, at, c).0.incidents
         == if Offered(stage, at).value.id in db.incidents then db.incidents[Offered(stage, at).value.id := Offered(stage, at).value] else db.incidents
  {
    OfferIsWritten(db, stage, at);
    hide Incident.AddAnomaly, Incident.Transition, Incident.AttachAction, Incident.AttachEvidence, Write;
  }

  // ----- Links -----

  predicate HoldsAnomaly(stage: Stage) {
    stage.Detected? || stage.Merging? || stage.Opening? || stage.Linking?
  }

  ghost predicate Lists(inc: Incidents, i: string, x: string) {
    i in inc && x in inc[i].anomalyIds
  }

  // An anomaly is held by the one call that found it, until it is linked.
  ghost predicate HeldOk(an: Anomalies, inc: Incidents, stage: Stage)
    requires HoldsAnomaly(stage)
  {
    var a := stage.anomaly;
    && a.id in an && an[a.id].incidentId == ""
    && if stage.Linking? then a.incidentId != "" && Lists(inc, a.incidentId, a.id)
       else (forall i | i in inc :: a.id !in inc[i].anomalyIds) && (stage.Merging? ==> stage.copy.status != Closed)
  }

  ghost predicate Awaits(clients: map<nat, Busy>, x: string, i: string) {
    exists c :: c in clients && clients[c].stage.Linking? && clients[c].stage.anomaly.id == x && clients[c].stage.anomaly.incidentId == i
  }

  // Every link is complete, up to the clients about to complete it.
  ghost predicate Linked(an: Anomalies, inc: Incidents, clients: map<nat, Busy>) {
    && (forall x | x in an :: an[x].incidentId == "" || Lists(inc, an[x].incidentId, x))
    && (forall i | i in inc :: i != "" && inc[i].id == i)
    && (forall i, x | i in inc && x in inc[i].anomalyIds :: x in an && (an[x].incidentId == i || Awaits(clients, x, i)))
  }

  ghost predicate HeldApart(an: Anomalies, inc: Incidents, clients: map<nat, Busy>) {
    && (forall c | c in clients && HoldsAnomaly(clients[c].stage) :: HeldOk(an, inc, clients[c].stage))
    && (forall c, d | c in clients && d in clients && c != d && HoldsAnomaly(clients[c].stage) && HoldsAnomaly(clients[d].stage) ::
          clients[c].stage.anomaly.id != clients[d].stage.anomaly.id)
  }

  ghost predicate Whole(an: Anomalies, inc: Incidents, clients: map<nat, Busy>) {
    Linked(an, inc, clients) && HeldApart(an, inc, clients)
  }

  ghost predicate SameLists(inc: Incidents, inc': Incidents) {
    && inc'.Keys == inc.Keys
    && forall i | i in inc :: inc'[i].id == inc[i].id && inc'[i].anomalyIds == inc[i].anomalyIds
  }

  ghost predicate OnlyMoves(clients: map<nat, Busy>, clients': map<nat, Busy>, c: nat) {
    forall d | d != c :: (d in clients' <==> d in clients) && (d in clients ==> clients'[d] == clients[d])
  }

  // The scan's answer: the same anomaly, to be merged only into an incident that was open.
  predicate Goes(before: Stage, after: Stage) {
    && before.Detected? && ((after.Merging? && after.copy.status != Closed) || after.Opening?)
    && after.anomaly == before.anomaly
  }

  // A step that neither finds nor links: the client does not leave a link half done.
  lemma WholeAfterOther(an: Anomalies, inc: Incidents, inc': Incidents, clients: map<nat, Busy>, clients': map<nat, Busy>, c: nat)
    requires Whole(an, inc, clients) && SameLists(inc, inc') && OnlyMoves(clients, clients', c)
    requires c in clients ==> !clients[c].stage.Linking?
    requires c in clients' && HoldsAnomaly(clients'[c].stage) ==> c in clients && Goes(clients[c].stage, clients'[c].stage)
    ensures Whole(an, inc', clients')
  {
    forall x, i | Awaits(clients, x, i) ensures Awaits(clients', x, i) {
    }
    forall d | d in clients' && HoldsAnomaly(clients'[d].stage) ensures HeldOk(an, inc', clients'[d].stage) {
      assert d in clients && HoldsAnomaly(clients[d].stage) && HeldOk(an, inc, clients[d].stage);
    }
  }

  lemma WholeAfterDetect(an: Anomalies, inc: Incidents, clients: map<nat, Busy>, c: nat, a: Anomaly, now: int)
    requires Whole(an, inc, clients) && a.id !in an && a.incidentId == "" && c !in clients
    ensures Whole(an[a.id := a], inc, clients[c := Busy(Detected(a), now)])
  {
    var clients' := clients[c := Busy(Detected(a), now)];
    forall x, i | Awaits(clients, x, i) ensures Awaits(clients', x, i) {
      var d :| d in clients && clients[d].stage.Linking? && clients[d].stage.anomaly.id == x && clients[d].stage.anomaly.incidentId == i;
      assert clients'[d] == clients[d];
    }
  }

  // The anomaly a client holds becomes listed by incident i.
  ghost predicate NewlyLists(an: Anomalies, inc: Incidents, inc': Incidents, clients: map<nat, Busy>, c: nat, i: string) {
    && c in clients && (clients[c].stage.Merging? || clients[c].stage.Opening?)
    && i != "" && inc'.Keys == inc.Keys + {i} && inc'[i].id == i
    && inc'[i].anomalyIds == (if i in inc then inc[i].anomalyIds else []) + [clients[c].stage.anomaly.id]
    && forall j | j in inc && j != i :: inc'[j] == inc[j]
  }

  function NowLinking(clients: map<nat, Busy>, c: nat, i: string, now: int): map<nat, Busy>
    requires c in clients && (clients[c].stage.Merging? || clients[c].stage.Opening?)
  {
    clients[c := Busy(Linking(clients[c].stage.anomaly.(incidentId := i)), now)]
  }

  lemma AwaitsStill(clients: map<nat, Busy>, c: nat, i: string, now: int)
    requires c in clients && (clients[c].stage.Merging? || clients[c].stage.Opening?)
    ensures forall x, j :: Awaits(clients, x, j) ==> Awaits(NowLinking(clients, c, i, now), x, j)
    ensures Awaits(NowLinking(clients, c, i, now), clients[c].stage.anomaly.id, i)
  {
    var clients' := NowLinking(clients, c, i, now);
    forall x, j | Awaits(clients, x, j) ensures Awaits(clients', x, j) {
      var d :| d in clients && clients[d].stage.Linking? && clients[d].stage.anomaly.id == x && clients[d].stage.anomaly.incidentId == j;
      assert clients'[d] == clients[d];
    }
    assert clients'[c].stage.Linking?;
  }

  lemma LinkedAfterListing(an: Anomalies, inc: Incidents, inc': Incidents, clients: map<nat, Busy>, c: nat, i: string, now: int)
    requires Whole(an, inc, clients) && NewlyLists(an, inc, inc', clients, c, i)
    ensures Linked(an, inc', NowLinking(clients, c, i, now))
  {
    var a, clients' := clients[c].stage.anomaly, NowLinking(clients, c, i, now);
    assert HeldOk(an, inc, clients[c].stage);
    AwaitsStill(clients, c, i, now);
    hide Awaits, HeldApart, NowLinking;
    forall x, j | j in inc && x in inc[j].anomalyIds ensures Lists(inc', j, x) {
    }
    forall x, j | j in inc' && x in inc'[j].anomalyIds ensures x in an && (an[x].incidentId == j || Awaits(clients', x, j)) {
      assert (j in inc && x in inc[j].anomalyIds) || (j == i && x == a.id);
    }
  }

  lemma ApartAfterListing(an: Anomalies, inc: Incidents, inc': Incidents, clients: map<nat, Busy>, c: nat, i: string, now: int)
    requires Whole(an, inc, clients) && NewlyLists(an, inc, inc', clients, c, i)
    ensures HeldApart(an, inc', NowLinking(clients, c, i, now))
  {
    var a, clients' := clients[c].stage.anomaly, NowLinking(clients, c, i, now);
    assert HeldOk(an, inc, clients[c].stage);
    hide Linked;
    forall d | d in clients' && HoldsAnomaly(clients'[d].stage) ensures HeldOk(an, inc', clients'[d].stage) {
      if d != c {
        assert HeldOk(an, inc, clients[d].stage) && clients[d].stage.anomaly.id != a.id;
      }
    }
  }

  lemma WholeAfterListing(an: Anomalies, inc: Incidents, inc': Incidents, clients: map<nat, Busy>, c: nat, i: string, now: int)
    requires Whole(an, inc, clients) && NewlyLists(an, inc, inc', clients, c, i)
    ensures Whole(an, inc', NowLinking(clients, c, i, now))
  {
    hide Linked, HeldApart, NewlyLists, NowLinking;
    LinkedAfterListing(an, inc, inc', clients, c, i, now);
    ApartAfterListing(an, inc, inc', clients, c, i, now);
  }

  lemma WholeAfterLinking(an: Anomalies, inc: Incidents, clients: map<nat, Busy>, c: nat)
    requires Whole(an, inc, clients) && c in clients && clients[c].stage.Linking?
    ensures var a := clients[c].stage.anomaly; Whole(an[a.id := a], inc, clients - {c})
  {
    var a := clients[c].stage.anomaly;
    var clients' := clients - {c};
    assert HeldOk(an, inc, clients[c].stage);
    forall x, i | i in inc && x in inc[i].anomalyIds
      ensures x in an[a.id := a] && (an[a.id := a][x].incidentId == i || Awaits(clients', x, i))
    {
      if an[x].incidentId != i {
        var d :| d in clients && clients[d].stage.Linking? && clients[d].stage.anomaly.id == x && clients[d].stage.anomaly.incidentId == i;
        if d != c {
          assert clients'[d] == clients[d];
        }
      }
    }
  }

  ghost predicate WholeWorld(w: World) {
    Whole(w.db.anomalies, w.db.incidents, w.clients)
  }

  lemma BeginIsWhole(w: World, e: Event)
    requires WholeWorld(w) && Can(w, e) && e.Begin?
    ensures WholeWorld(Next(w, e))
  {
    hide Whole;
    var w' := Next(w, e);
    if e.request.Detect? && w.db.PutAnomaly(e.request.anomaly).Ok? {
      WholeAfterDetect(w.db.anomalies, w.db.incidents, w.clients, e.client, e.request.anomaly, e.end);
    } else {
      WholeAfterOther(w.db.anomalies, w.db.incidents, w'.db.incidents, w.clients, w'.clients, e.client);
    }
  }

  // ----- What breaks the links -----

  // The step writes an incident from a list that misses an anomaly the stored one lists.
  ghost predicate Drops(w: World, e: Event) {
    && e.Step? && e.client in w.clients
    && var offered := Offered(w.clients[e.client].stage, e.at);
       && offered.Some? && offered.value.id in w.db.incidents
       && exists x :: x in w.db.incidents[offered.value.id].anomalyIds && x !in offered.value.anomalyIds
  }

  ghost predicate NoneDrops(events: seq<Event>) {
    events == [] || (NoneDrops(events[..|events| - 1]) && !Drops(Run(events[..|events| - 1]), events[|events| - 1]))
  }

  // Every held copy lists the first of the stored incident's anomalies.
  ghost predicate Behind(db: Db, clients: map<nat, Busy>) {
    forall c | c in clients && HoldsIncident(clients[c].stage) :: CopyIsBehind(db, clients[c].stage.copy)
  }

  ghost predicate CopyIsBehind(db: Db, copy: Incident) {
    copy.id in db.incidents && copy.anomalyIds <= db.incidents[copy.id].anomalyIds
  }

  // A prefix that misses nothing of a list without repetitions is the list.
  lemma NothingMissing(front: seq<string>, all: seq<string>)
    requires front <= all && NoRepeats(all) && forall x | x in all :: x in front
    ensures front == all
  {
    if all != [] {
      FoundInFront(front, all, |all| - 1);
    }
  }

  lemma FoundInFront(front: seq<string>, all: seq<string>, k: nat)
    requires front <= all && NoRepeats(all) && k < |all| && all[k] in front
    ensures k < |front|
  {
    var j :| 0 <= j < |front| && front[j] == all[k];
    assert all[j] == all[k];
  }

  // The list a writing stage offers: its copy's, and what a merge adds.
  lemma OfferedList(stage: Stage, at: int)
    requires Offered(stage, at).Some?
    ensures var i := Offered(stage, at).value;
            && HoldsIncident(stage) && i.id == stage.copy.id
            && if stage.Merging? && stage.copy.status != Closed && stage.anomaly.id !in stage.copy.anomalyIds
               then i.anomalyIds == stage.copy.anomalyIds + [stage.anomaly.id]
               else i.anomalyIds == stage.copy.anomalyIds
  {
  }

  // In a whole world a write drops nothing exactly when its copy lists what is stored.
  lemma DropsIsLagging(w: World, e: Event)
    requires WholeWorld(w) && Sound(w) && Behind(w.db, w.clients) && Can(w, e) && e.Step?
    requires Offered(w.clients[e.client].stage, e.at).Some?
    ensures var copy := w.clients[e.client].stage.copy;
            copy.id in w.db.incidents && (Drops(w, e) <==> copy.anomalyIds != w.db.incidents[copy.id].anomalyIds)
  {
    var stage := w.clients[e.client].stage;
    OfferedList(stage, e.at);
    SoundHasNoRepeats(w);
    assert CopyIsBehind(w.db, stage.copy);
    var stored := w.db.incidents[stage.copy.id].anomalyIds;
    assert stage.Merging? ==> HeldOk(w.db.anomalies, w.db.incidents, stage);
    hide Offered, Sound, Linked, HeldApart, Behind, NoRepeats;
    if !Drops(w, e) {
      NothingMissing(stage.copy.anomalyIds, stored);
    }
  }

  // The copy the step writes from lists what is stored, if the step writes at all.
  ghost predicate UpToDate(w: World, e: Event) {
    e.Step? && e.client in w.clients && Offered(w.clients[e.client].stage, e.at).Some? ==>
      var copy := w.clients[e.client].stage.copy;
      copy.id in w.db.incidents && copy.anomalyIds == w.db.incidents[copy.id].anomalyIds
  }

  lemma WriteStepIsWhole(w: World, e: Event)
    requires WholeWorld(w) && Can(w, e) && UpToDate(w, e) && e.Step?
    requires var st := w.clients[e.client].stage; st.Moving? || st.AttachingAction? || st.AttachingEvidence?
    ensures WholeWorld(Next(w, e))
  {
    var stage := w.clients[e.client].stage;
    OfferIsWritten(w.db, stage, e.at);
    if Offered(stage, e.at).Some? {
      OfferKeepsList(stage, e.at);
    }
    hide Offered, Whole, Write;
    WholeAfterOther(w.db.anomalies, w.db.incidents, Next(w, e).db.incidents, w.clients, Next(w, e).clients, e.client);
  }

  lemma OfferKeepsList(stage: Stage, at: int)
    requires !stage.Merging? && Offered(stage, at).Some?
    ensures var i := Offered(stage, at).value; i.id == stage.copy.id && i.anomalyIds == stage.copy.anomalyIds
  {
  }

  lemma MergeIsWhole(w: World, e: Event)
    requires WholeWorld(w) && Can(w, e) && UpToDate(w, e) && e.Step? && w.clients[e.client].stage.Merging?
    ensures WholeWorld(Next(w, e))
  {
    var stage := w.clients[e.client].stage;
    assert HeldOk(w.db.anomalies, w.db.incidents, stage);
    OfferIsWritten(w.db, stage, e.at);
    assert w.db.incidents[stage.copy.id].anomalyIds == stage.copy.anomalyIds && stage.copy.id != "";
    hide Whole, Write;
    WholeAfterListing(w.db.anomalies, w.db.incidents, Next(w, e).db.incidents, w.clients, e.client, stage.copy.id, e.end);
  }

  lemma OpenIsWhole(w: World, e: Event)
    requires WholeWorld(w) && Can(w, e) && e.Step? && w.clients[e.client].stage.Opening?
    ensures WholeWorld(Next(w, e))
  {
    hide Whole, TrimSpace;
    var a := w.clients[e.client].stage.anomaly;
    var made := NewIncident(e.choice.id, a.deviceId, Calls.IncidentTitle(a.signal), a.severity, a.id, e.at);
    if made.Ok? && w.db.PutIncident(made.value).Ok? {
      assert e.choice.id != "" by { assert Blank("") by { EmptyIsBlank(); } }
      WholeAfterListing(w.db.anomalies, w.db.incidents, Next(w, e).db.incidents, w.clients, e.client, made.value.id, e.end);
    } else {
      WholeAfterOther(w.db.anomalies, w.db.incidents, w.db.incidents, w.clients, Next(w, e).clients, e.client);
    }
  }

  lemma EmptyIsBlank()
    ensures Blank("")
  {
  }

  lemma LinkIsWhole(w: World, e: Event)
    requires WholeWorld(w) && Can(w, e) && e.Step? && w.clients[e.client].stage.Linking?
    ensures WholeWorld(Next(w, e))
  {
    assert HeldOk(w.db.anomalies, w.db.incidents, w.clients[e.client].stage);
    hide Whole;
    WholeAfterLinking(w.db.anomalies, w.db.incidents, w.clients, e.client);
  }

  // The remaining steps change neither anomalies nor incidents.
  lemma QuietStepIsWhole(w: World, e: Event)
    requires WholeWorld(w) && Can(w, e) && e.Step?
    requires var st := w.clients[e.client].stage; st.Detected? || st.Acting? || st.Gathering? || st.Starting? || st.Finishing? || st.Cancelling?
    ensures WholeWorld(Next(w, e))
  {
    hide Whole, NewAction, NewEvidence, Action.Start, Action.Finish, Action.Simulate, Action.Cancel;
    WholeAfterOther(w.db.anomalies, w.db.incidents, w.db.incidents, w.clients, Next(w, e).clients, e.client);
  }

  lemma UpToDateStepIsWhole(w: World, e: Event)
    requires WholeWorld(w) && Can(w, e) && UpToDate(w, e)
    ensures WholeWorld(Next(w, e))
  {
    if e.Begin? {
      hide Next, WholeWorld, Can;
      BeginIsWhole(w, e);
    } else if e.Abandon? {
      hide Whole;
      WholeAfterOther(w.db.anomalies, w.db.incidents, w.db.incidents, w.clients, w.clients - {e.client}, e.client);
    } else {
      var stage := w.clients[e.client].stage;
      hide Next, WholeWorld, Can, UpToDate;
      match stage
      case Merging(_, _) => MergeIsWhole(w, e);
      case Opening(_) => OpenIsWhole(w, e);
      case Linking(_) => LinkIsWhole(w, e);
      case Moving(_, _) => WriteStepIsWhole(w, e);
      case AttachingAction(_, _) => WriteStepIsWhole(w, e);
      case AttachingEvidence(_, _) => WriteStepIsWhole(w, e);
      case _ => QuietStepIsWhole(w, e);
    }
  }

  // A dropped anomaly still names the incident, or is about to.
  lemma DroppingIsNotWhole(w: World, e: Event)
    requires WholeWorld(w) && Can(w, e) && Drops(w, e)
    ensures !WholeWorld(Next(w, e))
  {
    var stage := w.clients[e.client].stage;
    var i := Offered(stage, e.at).value;
    var x :| x in w.db.incidents[i.id].anomalyIds && x !in i.anomalyIds;
    OfferedList(stage, e.at);
    OfferIsWritten(w.db, stage, e.at);
    hide Offered, Write;
    var w' := Next(w, e);
    assert w'.db.anomalies == w.db.anomalies && !Lists(w'.db.incidents, i.id, x);
    if w.db.anomalies[x].incidentId != i.id {
      var d :| d in w.clients && w.clients[d].stage.Linking? && w.clients[d].stage.anomaly.id == x && w.clients[d].stage.anomaly.incidentId == i.id;
      assert d in w'.clients && w'.clients[d] == w.clients[d];
      hide HeldApart, Linked;
      HeldIsListed(w', d);
    }
  }

  lemma HeldIsListed(w: World, d: nat)
    requires d in w.clients && w.clients[d].stage.Linking?
    ensures WholeWorld(w) ==> var a := w.clients[d].stage.anomaly; Lists(w.db.incidents, a.incidentId, a.id)
  {
    hide Linked;
    if WholeWorld(w) {
      assert HeldOk(w.db.anomalies, w.db.incidents, w.clients[d].stage);
    }
  }

  /** One step of any client keeps every link whole exactly unless it writes an incident from a list
      that misses an anomaly the stored one lists. */
  lemma WholeExactlyUnlessDropped(w: World, e: Event)
    requires WholeWorld(w) && Sound(w) && Behind(w.db, w.clients) && Can(w, e)
    ensures WholeWorld(Next(w, e)) <==> !Drops(w, e)
  {
    if Drops(w, e) {
      hide WholeWorld, Can, Next, Sound;
      DroppingIsNotWhole(w, e);
    } else {
      NotDroppingIsUpToDate(w, e);
      hide WholeWorld, Can, Next, Sound, UpToDate;
      UpToDateStepIsWhole(w, e);
    }
  }

  lemma NotDroppingIsUpToDate(w: World, e: Event)
    requires WholeWorld(w) && Sound(w) && Behind(w.db, w.clients) && Can(w, e) && !Drops(w, e)
    ensures UpToDate(w, e)
  {
    if e.Step? && Offered(w.clients[e.client].stage, e.at).Some? {
      DropsIsLagging(w, e);
    }
    hide WholeWorld, Sound, Behind, Offered, Drops, Db.MayFind;
  }

  // ----- Copies stay behind -----

  // Every list grows only at its end, and no incident goes away.
  ghost predicate ListsGrow(inc: Incidents, inc': Incidents) {
    forall i | i in inc :: i in inc' && inc[i].anomalyIds <= inc'[i].anomalyIds
  }

  // The copy a stage holds, if any, is behind the store.
  ghost predicate StageBehind(db: Db, stage: Option<Stage>) {
    stage.Some? && HoldsIncident(stage.value) ==> CopyIsBehind(db, stage.value.copy)
  }

  lemma BehindStays(db: Db, db': Db, clients: map<nat, Busy>, c: nat, stage: Option<Stage>, end: int)
    requires Behind(db, clients) && ListsGrow(db.incidents, db'.incidents) && StageBehind(db', stage)
    ensures Behind(db', Placed(clients, c, stage, end))
  {
    forall d | d in Placed(clients, c, stage, end) && d != c && HoldsIncident(clients[d].stage)
      ensures CopyIsBehind(db', clients[d].stage.copy)
    {
      assert CopyIsBehind(db, clients[d].stage.copy);
    }
  }

  lemma BegunStaysBehind(db: Db, clients: map<nat, Busy>, r: Request)
    requires forall i | i in db.incidents :: db.incidents[i].id == i
    ensures ListsGrow(db.incidents, Begun(db, r).0.incidents) && StageBehind(Begun(db, r).0, Begun(db, r).1)
  {
  }

  lemma WriteStaysBehind(w: World, e: Event)
    requires UpToDate(w, e) && Can(w, e) && e.Step? && Offered(w.clients[e.client].stage, e.at).Some?
    ensures var result := Advanced(w.db, w.clients[e.client].stage, e.at, e.choice);
            ListsGrow(w.db.incidents, result.0.incidents) && StageBehind(result.0, result.1)
  {
    var stage := w.clients[e.client].stage;
    OfferedList(stage, e.at);
    OfferIsWritten(w.db, stage, e.at);
    hide Offered, Write;
  }

  // A client goes on with the copy it has, or with a stored incident.
  lemma NextCopy(db: Db, stage: Stage, at: int, c: Choice)
    ensures var next := Advanced(db, stage, at, c).1;
            next.Some? && HoldsIncident(next.value) ==>
              (HoldsIncident(stage) && next.value.copy == stage.copy) || exists i :: i in db.incidents && next.value.copy == db.incidents[i]
  {
    hide Write, NewIncident, NewAction, NewEvidence, Action.Start, Action.Finish, Action.Simulate, Action.Cancel;
  }

  // Steps that write no incident from a copy.
  lemma OtherStaysBehind(db: Db, stage: Stage, at: int, c: Choice)
    requires (forall i | i in db.incidents :: db.incidents[i].id == i) && StageBehind(db, Some(stage)) && Offered(stage, at) == None
    ensures var result := Advanced(db, stage, at, c);
            ListsGrow(db.incidents, result.0.incidents) && StageBehind(result.0, result.1)
  {
    AdvancedWritesOnly(db, stage, at, c);
    NextCopy(db, stage, at, c);
    hide Advanced, Offered;
  }

  lemma StepStaysBehind(w: World, e: Event)
    requires WholeWorld(w) && Behind(w.db, w.clients) && Can(w, e) && UpToDate(w, e)
    ensures Behind(Next(w, e).db, Next(w, e).clients)
  {
    assert forall i | i in w.db.incidents :: w.db.incidents[i].id == i;
    hide WholeWorld;
    if e.Begin? {
      BegunStaysBehind(w.db, w.clients, e.request);
      hide Begun, ListsGrow, StageBehind;
      BehindStays(w.db, Begun(w.db, e.request).0, w.clients, e.client, Begun(w.db, e.request).1, e.end);
    } else if e.Step? {
      var stage := w.clients[e.client].stage;
      var result := Advanced(w.db, stage, e.at, e.choice);
      assert StageBehind(w.db, Some(stage));
      hide Advanced, Offered, StageBehind, ListsGrow, Db.MayFind;
      if Offered(stage, e.at).Some? {
        WriteStaysBehind(w, e);
      } else {
        OtherStaysBehind(w.db, stage, e.at, e.choice);
      }
      BehindStays(w.db, result.0, w.clients, e.client, result.1, e.end);
    }
  }

  // ----- Every run -----

  // The links are whole in every state of the run.
  ghost predicate AlwaysWhole(events: seq<Event>) {
    WholeWorld(Run(events)) && (events == [] || AlwaysWhole(events[..|events| - 1]))
  }

  lemma {:induction false} RunIsWhole(events: seq<Event>)
    requires CanRun(events) && NoneDrops(events)
    ensures WholeWorld(Run(events)) && Behind(Run(events).db, Run(events).clients)
  {
    if events != [] {
      hide WholeWorld, Behind, Can, Next, Drops;
      var front, e := events[..|events| - 1], events[|events| - 1];
      RunIsWhole(front);
      EveryRunIsSound(front);
      WholeExactlyUnlessDropped(Run(front), e);
      NotDroppingIsUpToDate(Run(front), e);
      StepStaysBehind(Run(front), e);
    }
  }

  /** Every state of an interleaved run has whole links if and only if no step of the run writes an
      incident from a list that misses an anomaly the stored one lists. */
  lemma {:induction false} AlwaysWholeExactlyUnlessDropped(events: seq<Event>)
    requires CanRun(events)
    ensures AlwaysWhole(events) <==> NoneDrops(events)
  {
    if events == [] {
      RunIsWhole(events);
    } else {
      hide WholeWorld, Behind, Can, Next, Drops;
      var front, e := events[..|events| - 1], events[|events| - 1];
      AlwaysWholeExactlyUnlessDropped(front);
      if NoneDrops(front) {
        RunIsWhole(front);
        EveryRunIsSound(front);
        WholeExactlyUnlessDropped(Run(front), e);
      }
    }
  }

  /** An interleaved run without such a step that has come to rest leaves a partition, up to the
      anomalies whose correlation was cut short. */
  lemma RestIsPartitioned(events: seq<Event>)
    requires CanRun(events) && NoneDrops(events)
    requires forall c | c in Run(events).clients :: !HoldsAnomaly(Run(events).clients[c].stage)
    ensures Partition(Run(events).db.anomalies, Run(events).db.incidents) <==> Orphans(Run(events).db.anomalies) == {}
  {
    RunIsWhole(events);
    EveryRunIsSound(events);
    var w := Run(events);
    hide CanRun, Run, NoneDrops, Sound, Whole, Partition, Orphans, Behind;
    SoundHasNoRepeats(w);
    WholeAtRest(w.db.anomalies, w.db.incidents, w.clients);
  }

  lemma SoundHasNoRepeats(w: World)
    requires Sound(w)
    ensures forall i | i in w.db.incidents :: NoRepeats(w.db.incidents[i].anomalyIds)
  {
    hide PeakSeverity, ListsOwn, Justified, BudgetsOk, ClientsOk, NoRepeats;
    forall i | i in w.db.incidents ensures NoRepeats(w.db.incidents[i].anomalyIds) {
      assert ListsFindings(w.db.anomalies, w.db.incidents[i]);
    }
  }

  lemma WholeAtRest(an: Anomalies, inc: Incidents, clients: map<nat, Busy>)
    requires Whole(an, inc, clients) && forall c | c in clients :: !HoldsAnomaly(clients[c].stage)
    requires forall i | i in inc :: NoRepeats(inc[i].anomalyIds)
    ensures Partition(an, inc) <==> Orphans(an) == {}
  {
    hide HeldApart, NoRepeats;
    forall i, x | i in inc && x in inc[i].anomalyIds ensures x in an && an[x].incidentId == i {
      assert !Awaits(clients, x, i);
    }
    forall x | x in an && an[x].incidentId == "" ensures x in Orphans(an) && "" !in inc {
    }
  }

  // ----- What writing an overtaken copy can undo -----

  const WINDOW := Window("d", "st", "temp", 0, 1, 1, 0.0, 0.0, 0.0, 0.0, 0)

  function Finding(id: string): Anomaly {
    Anomaly(id, "d", "st", "temp", "p", 0, 3, 0.0, WINDOW, AnomalyOpen, "", 1, 1)
  }

  const MISSED := Choice(None, "i")
  const FOUND := Choice(Some("i"), "")

  // One call opens incident i from anomaly a.
  const OPENED: seq<Event> := [
    Begin(1, Detect(Finding("a")), 1), Step(1, 1, MISSED, 1), Step(1, 1, MISSED, 1), Step(1, 1, MISSED, 1)]

  // Two more find i before either merges its own anomaly into it.
  const CROSSED: seq<Event> := [
    Begin(1, Detect(Finding("b")), 1), Begin(2, Detect(Finding("c")), 1),
    Step(1, 1, FOUND, 1), Step(2, 1, FOUND, 1)]

  // Both merge, and both link.
  const MERGED: seq<Event> := [
    Step(1, 1, FOUND, 1), Step(2, 1, FOUND, 1),
    Step(1, 1, FOUND, 1), Step(2, 1, FOUND, 1)]

  ghost predicate Leads(w: World, events: seq<Event>, w': World)
    decreases |events|
  {
    if events == [] then w == w'
    else Can(w, events[0]) && Leads(Next(w, events[0]), events[1..], w')
  }

  lemma {:induction false} LeadsOn(events: seq<Event>, more: seq<Event>, w': World)
    requires CanRun(events) && Leads(Run(events), more, w')
    ensures CanRun(events + more) && Run(events + more) == w'
    decreases |more|
  {
    hide Can, Next, CanRun, Run;
    if more == [] {
      assert events + more == events;
    } else {
      OneMore(events, more[0]);
      LeadsOn(events + [more[0]], more[1..], w');
      assert events + [more[0]] + more[1..] == events + more;
    }
  }

  lemma OneMore(events: seq<Event>, e: Event)
    requires CanRun(events) && Can(Run(events), e)
    ensures CanRun(events + [e]) && Run(events + [e]) == Next(Run(events), e)
  {
    hide Can, Next;
    assert (events + [e])[..|events + [e]| - 1] == events;
  }

  function OpenedIncident(): Incident {
    Incident("i", "d", TrimSpace(Calls.IncidentTitle("temp")), 3, Open, ["a"], [], [], 1, 1, None, None, 1)
  }

  function AfterOpened(): World {
    World(EMPTY.(anomalies := map["a" := Finding("a").(incidentId := "i")], incidents := map["i" := OpenedIncident()]), map[], 1)
  }

  lemma OpenedRun()
    ensures CanRun(OPENED) && Run(OPENED) == AfterOpened()
  {
    var w0 := World(EMPTY, map[], 0);
    var db1 := EMPTY.(anomalies := map["a" := Finding("a")]);
    var w1 := World(db1, map[1 := Busy(Detected(Finding("a")), 1)], 1);
    var w2 := World(db1, map[1 := Busy(Opening(Finding("a")), 1)], 1);
    var db3 := db1.(incidents := map["i" := OpenedIncident()]);
    var w3 := World(db3, map[1 := Busy(Linking(Finding("a").(incidentId := "i")), 1)], 1);
    assert Next(w0, OPENED[0]) == w1;
    assert Next(w1, OPENED[1]) == w2;
    assert Next(w2, OPENED[2]) == w3 by { IncidentIsMade(); }
    assert Next(w3, OPENED[3]) == AfterOpened();
    assert Can(w0, OPENED[0]) && Can(w1, OPENED[1]) && Can(w2, OPENED[2]) && Can(w3, OPENED[3]);
    hide Can, Next;
    assert Leads(w3, OPENED[3..], AfterOpened());
    assert Leads(w2, OPENED[2..], AfterOpened());
    assert Leads(w1, OPENED[1..], AfterOpened());
    LeadsOn([], OPENED, AfterOpened());
    assert [] + OPENED == OPENED;
  }

  lemma IncidentIsMade()
    ensures NewIncident("i", "d", Calls.IncidentTitle("temp"), 3, "a", 1) == Ok(OpenedIncident())
  {
    NotBlank("i", 0);
    NotBlank("d", 0);
    NotBlank(Calls.IncidentTitle("temp"), 0);
  }

  function LinkedTo(id: string): Anomaly {
    Finding(id).(incidentId := "i")
  }

  function AfterCrossed(): World {
    World(AfterOpened().db.(anomalies := map["a" := LinkedTo("a"), "b" := Finding("b"), "c" := Finding("c")]),
          map[1 := Busy(Merging(Finding("b"), OpenedIncident()), 1), 2 := Busy(Merging(Finding("c"), OpenedIncident()), 1)], 1)
  }

  function WhileFirst(): World {
    World(AfterOpened().db.(anomalies := map["a" := LinkedTo("a"), "b" := Finding("b")]), map[1 := Busy(Detected(Finding("b")), 1)], 1)
  }

  function WhileDetected(): World {
    World(AfterCrossed().db, map[1 := Busy(Detected(Finding("b")), 1), 2 := Busy(Detected(Finding("c")), 1)], 1)
  }

  function WhileScanning(): World {
    World(AfterCrossed().db, map[1 := Busy(Merging(Finding("b"), OpenedIncident()), 1), 2 := Busy(Detected(Finding("c")), 1)], 1)
  }

  lemma BothDetect()
    ensures Can(AfterOpened(), CROSSED[0]) && Next(AfterOpened(), CROSSED[0]) == WhileFirst()
    ensures Can(WhileFirst(), CROSSED[1]) && Next(WhileFirst(), CROSSED[1]) == WhileDetected()
  {
    hide OpenedIncident;
  }

  lemma BothScan()
    ensures Can(WhileDetected(), CROSSED[2]) && Next(WhileDetected(), CROSSED[2]) == WhileScanning()
    ensures Can(WhileScanning(), CROSSED[3]) && Next(WhileScanning(), CROSSED[3]) == AfterCrossed()
  {
    MayFindIt(AfterCrossed().db);
    hide OpenedIncident, Db.MayFind;
  }

  lemma CrossedRun()
    ensures Leads(AfterOpened(), CROSSED, AfterCrossed())
  {
    BothDetect();
    BothScan();
    hide Can, Next, AfterOpened, AfterCrossed, WhileFirst, WhileDetected, WhileScanning;
    assert Leads(WhileScanning(), CROSSED[3..], AfterCrossed());
    assert Leads(WhileDetected(), CROSSED[2..], AfterCrossed());
    assert Leads(WhileFirst(), CROSSED[1..], AfterCrossed());
  }

  function AfterMerged(): World {
    World(AfterOpened().db.(anomalies := map["a" := LinkedTo("a"), "b" := LinkedTo("b"), "c" := LinkedTo("c")],
                            incidents := map["i" := OpenedIncident().(anomalyIds := ["a", "c"], version := 2)]),
          map[], 1)
  }

  function AfterMerges(): World {
    World(AfterCrossed().db.(incidents := AfterMerged().db.incidents),
          map[1 := Busy(Linking(LinkedTo("b")), 1), 2 := Busy(Linking(LinkedTo("c")), 1)], 1)
  }

  function MergedOnce(id: string): Incident {
    OpenedIncident().(anomalyIds := ["a", id], version := 2)
  }

  function WhileMerging(): World {
    World(AfterCrossed().db.(incidents := map["i" := MergedOnce("b")]),
          map[1 := Busy(Linking(LinkedTo("b")), 1), 2 := Busy(Merging(Finding("c"), OpenedIncident()), 1)], 1)
  }

  lemma OneMerges()
    ensures Can(AfterCrossed(), MERGED[0]) && Next(AfterCrossed(), MERGED[0]) == WhileMerging()
  {
    assert ["a"] + ["b"] == ["a", "b"];
    assert OpenedIncident().AddAnomaly("b", 3, 1) == Ok(MergedOnce("b"));
    hide Incident.AddAnomaly, TrimSpace;
  }

  lemma OtherMerges()
    ensures Can(WhileMerging(), MERGED[1]) && Next(WhileMerging(), MERGED[1]) == AfterMerges()
  {
    assert ["a"] + ["c"] == ["a", "c"];
    assert OpenedIncident().AddAnomaly("c", 3, 1) == Ok(MergedOnce("c"));
    hide Incident.AddAnomaly, TrimSpace;
  }

  lemma MergesRun()
    ensures Leads(AfterCrossed(), MERGED[..2], AfterMerges())
  {
    var both := MERGED[..2];
    OneMerges();
    OtherMerges();
    hide Can, Next, AfterCrossed, AfterMerges, WhileMerging;
    assert Leads(WhileMerging(), both[1..], AfterMerges());
  }

  lemma LinksRun()
    ensures Leads(AfterMerges(), MERGED[2..], AfterMerged())
  {
    var w0, both := AfterMerges(), MERGED[2..];
    var w1 := World(w0.db.(anomalies := w0.db.anomalies["b" := LinkedTo("b")]), map[2 := Busy(Linking(LinkedTo("c")), 1)], 1);
    hide OpenedIncident;
    assert Can(w0, both[0]) && Next(w0, both[0]) == w1;
    assert Can(w1, both[1]) && Next(w1, both[1]) == AfterMerged();
    hide Can, Next;
    assert Leads(w1, both[1..], AfterMerged());
  }

  lemma MayFindIt(db: Db)
    requires db.incidents == AfterOpened().db.incidents && "a" in db.anomalies && db.anomalies["a"].signal == "temp"
    ensures db.MayFind("d", "temp", 1 - TEN_MINUTES, Some("i"))
  {
    assert db.SignalOf(OpenedIncident().anomalyIds[0]) == "temp";
  }

  /** Two merges from one copy: everyone finishes and names the incident, yet the incident does not list one of them. */
  lemma LostUpdateBreaksThePartition()
    ensures var events := OPENED + CROSSED + MERGED;
            && CanRun(events) && Run(events).clients == map[]
            && Orphans(Run(events).db.anomalies) == {} && !Partition(Run(events).db.anomalies, Run(events).db.incidents)
  {
    OpenedRun();
    CrossedRun();
    MergesRun();
    LinksRun();
    hide CanRun, Run, Leads, TrimSpace;
    LeadsOn(OPENED, CROSSED, AfterCrossed());
    LeadsOn(OPENED + CROSSED, MERGED[..2], AfterMerges());
    LeadsOn(OPENED + CROSSED + MERGED[..2], MERGED[2..], AfterMerged());
    assert OPENED + CROSSED + MERGED[..2] + MERGED[2..] == OPENED + CROSSED + MERGED;
    var an := AfterMerged().db.anomalies;
    assert an["b"].incidentId == "i" && "b" !in AfterMerged().db.incidents["i"].anomalyIds;
  }

  // Incident i gets evidence, and is resolved.
  const ITEM := Calls.EvidenceInput("e", OperatorNote, "t", "b", "s")
  const NOTED: seq<Event> := [
    Begin(1, Gather("i", ITEM, false), 1), Step(1, 1, MISSED, 1), Step(1, 1, MISSED, 1)]
  const RESOLVED: seq<Event> := [Begin(1, Move("i", Resolved), 1), Step(1, 1, MISSED, 1)]

  // One call takes it up again, from a copy read before another closes it.
  const REOPENED: seq<Event> := [
    Begin(1, Move("i", Investigating), 1), Begin(2, Move("i", Closed), 1),
    Step(2, 1, MISSED, 1), Step(1, 1, MISSED, 1)]

  function Note(): Evidence {
    Evidence("e", "i", OperatorNote, TrimSpace("t"), "b", TrimSpace("s"), 1)
  }

  function NotedIncident(): Incident {
    OpenedIncident().(evidenceIds := ["e"], version := 2)
  }

  function ResolvedIncident(): Incident {
    NotedIncident().(status := Resolved, resolvedAt := Some(1), version := 3)
  }

  function AfterNoted(): World {
    World(AfterOpened().db.(evidence := map["e" := Note()], incidents := map["i" := NotedIncident()]), map[], 1)
  }

  function AfterResolved(): World {
    World(AfterNoted().db.(incidents := map["i" := ResolvedIncident()]), map[], 1)
  }

  function WhileGathering(): World {
    World(AfterOpened().db, map[1 := Busy(Gathering(OpenedIncident(), ITEM), 1)], 1)
  }

  function WhileAttaching(): World {
    World(AfterOpened().db.(evidence := map["e" := Note()]), map[1 := Busy(AttachingEvidence(OpenedIncident(), "e"), 1)], 1)
  }

  lemma GatherBegins()
    ensures Can(AfterOpened(), NOTED[0]) && Next(AfterOpened(), NOTED[0]) == WhileGathering()
  {
    hide TrimSpace;
  }

  lemma NoteIsMade()
    ensures NewEvidence("e", "i", OperatorNote, "t", "b", "s", 1) == Ok(Note())
  {
    NotBlank("e", 0);
    NotBlank("i", 0);
    NotBlank("t", 0);
    NotBlank("b", 0);
    hide TrimSpace;
  }

  lemma NoteIsPut()
    ensures Can(WhileGathering(), NOTED[1]) && Next(WhileGathering(), NOTED[1]) == WhileAttaching()
  {
    NoteIsMade();
    hide NewEvidence, TrimSpace, OpenedIncident, Note;
    assert OpenedIncident().id == "i" && Note().id == "e" by { OpenedIsNamed(); }
  }

  lemma OpenedIsNamed()
    ensures OpenedIncident().id == "i" && Note().id == "e"
  {
  }

  lemma NoteIsAttached()
    ensures Can(WhileAttaching(), NOTED[2]) && Next(WhileAttaching(), NOTED[2]) == AfterNoted()
  {
    assert [] + ["e"] == ["e"];
    assert OpenedIncident().AttachEvidence("e", 1) == Ok(NotedIncident());
    hide Incident.AttachEvidence, TrimSpace, Note;
  }

  lemma NotedRun()
    ensures Leads(AfterOpened(), NOTED, AfterNoted())
  {
    GatherBegins();
    NoteIsPut();
    NoteIsAttached();
    hide Can, Next, AfterOpened, AfterNoted, WhileGathering, WhileAttaching;
    assert Leads(WhileAttaching(), NOTED[2..], AfterNoted());
    assert Leads(WhileGathering(), NOTED[1..], AfterNoted());
  }

  lemma ResolvedRun()
    ensures Leads(AfterNoted(), RESOLVED, AfterResolved())
  {
    var w0 := AfterNoted();
    var w1 := World(w0.db, map[1 := Busy(Moving(NotedIncident(), Resolved), 1)], 1);
    hide TrimSpace;
    assert Can(w0, RESOLVED[0]) && Next(w0, RESOLVED[0]) == w1;
    assert Can(w1, RESOLVED[1]) && Next(w1, RESOLVED[1]) == AfterResolved();
    hide Can, Next;
    assert Leads(w1, RESOLVED[1..], AfterResolved());
  }

  function AfterClosed(): World {
    World(AfterResolved().db.(incidents := map["i" := ResolvedIncident().(status := Closed, closedAt := Some(1), version := 4)]),
          map[1 := Busy(Moving(ResolvedIncident(), Investigating), 1)], 1)
  }

  function AfterReopened(): World {
    World(AfterResolved().db.(incidents := map["i" := ResolvedIncident().(status := Investigating, version := 4)]), map[], 1)
  }

  function WhileReopening(): World {
    World(AfterResolved().db, map[1 := Busy(Moving(ResolvedIncident(), Investigating), 1)], 1)
  }

  function WhileBoth(): World {
    World(AfterResolved().db, map[1 := Busy(Moving(ResolvedIncident(), Investigating), 1), 2 := Busy(Moving(ResolvedIncident(), Closed), 1)], 1)
  }

  lemma BothBegin()
    ensures Can(AfterResolved(), REOPENED[0]) && Next(AfterResolved(), REOPENED[0]) == WhileReopening()
    ensures Can(WhileReopening(), REOPENED[1]) && Next(WhileReopening(), REOPENED[1]) == WhileBoth()
  {
    hide NotedIncident, Note;
  }

  lemma OneCloses()
    ensures Can(WhileBoth(), REOPENED[2]) && Next(WhileBoth(), REOPENED[2]) == AfterClosed()
  {
    hide TrimSpace, Note;
  }

  lemma OtherReopens()
    ensures Can(AfterClosed(), REOPENED[3]) && Next(AfterClosed(), REOPENED[3]) == AfterReopened()
  {
    hide TrimSpace, Note;
  }

  lemma ReopenedRun()
    ensures Leads(AfterResolved(), REOPENED[..3], AfterClosed()) && Leads(AfterClosed(), REOPENED[3..], AfterReopened())
  {
    var closing := REOPENED[..3];
    BothBegin();
    OneCloses();
    OtherReopens();
    hide Can, Next, AfterResolved, WhileReopening, WhileBoth, AfterClosed, AfterReopened;
    assert Leads(AfterClosed(), REOPENED[3..], AfterReopened());
    assert Leads(WhileBoth(), closing[2..], AfterClosed());
    assert Leads(WhileReopening(), closing[1..], AfterClosed());
  }

  /** A transition from a copy read before the incident was closed takes it up again. */
  lemma ClosedMayReopen()
    ensures var events := OPENED + NOTED + RESOLVED + REOPENED[..3];
            && CanRun(events + REOPENED[3..])
            && "i" in Run(events).db.incidents && Run(events).db.incidents["i"].status == Closed
            && "i" in Run(events + REOPENED[3..]).db.incidents && Run(events + REOPENED[3..]).db.incidents["i"].status == Investigating
  {
    OpenedRun();
    NotedRun();
    ResolvedRun();
    ReopenedRun();
    hide CanRun, Run, Leads, TrimSpace;
    LeadsOn(OPENED, NOTED, AfterNoted());
    LeadsOn(OPENED + NOTED, RESOLVED, AfterResolved());
    LeadsOn(OPENED + NOTED + RESOLVED, REOPENED[..3], AfterClosed());
    LeadsOn(OPENED + NOTED + RESOLVED + REOPENED[..3], REOPENED[3..], AfterReopened());
  }
}
