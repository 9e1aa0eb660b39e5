/**
 * The distance in time between open incidents of one device and signal, when calls interleave:
 * it is kept as long as no incident is opened between another client's scan and its own opening,
 * and no write takes up a closed incident again.
 */
module Spacing {
  import opened Basics
  import opened Domain
  import opened Store
  import opened IncidentFacts
  import opened Linkage
  import opened Records
  import opened Overtaking

  ghost predicate AboutSame(a: Anomaly, b: Anomaly) {
    a.deviceId == b.deviceId && a.signal == b.signal
  }

  // The step opens an incident while another client, told that there is none, is about to open
  // one of the same device and signal.
  ghost predicate Crosses(w: World, e: Event) {
    && e.Step? && e.client in w.clients && w.clients[e.client].stage.Opening?
    && Next(w, e).db != w.db
    && exists d :: d in w.clients && d != e.client && w.clients[d].stage.Opening?
                   && AboutSame(w.clients[d].stage.anomaly, w.clients[e.client].stage.anomaly)
  }

  // The step writes an incident that is not closed over one that is.
  ghost predicate Revives(w: World, e: Event) {
    && e.Step? && e.client in w.clients
    && var offered := Offered(w.clients[e.client].stage, e.at);
       offered.Some? && offered.value.id in w.db.incidents
       && w.db.incidents[offered.value.id].status == Closed && offered.value.status != Closed
  }

  ghost predicate Orderly(events: seq<Event>) {
    events == [] ||
    var front, e := events[..|events| - 1], events[|events| - 1];
    Orderly(front) && !Crosses(Run(front), e) && !Revives(Run(front), e)
  }

  // ----- What the distance rests on -----

  // What no write of an incident changes.
  ghost predicate SameOrigin(a: Incident, b: Incident) {
    && a.id == b.id && a.deviceId == b.deviceId && a.openedAt == b.openedAt
    && a.anomalyIds != [] && b.anomalyIds != [] && a.anomalyIds[0] == b.anomalyIds[0]
  }

  ghost predicate OpenAbout(db: Db, i: string, deviceId: string, signal: string) {
    i in db.incidents && db.incidents[i].status != Closed && db.incidents[i].deviceId == deviceId && SignalOf(db.anomalies, db.incidents[i]) == signal
  }

  ghost predicate Spaced(db: Db) {
    forall i, j, deviceId, signal | i != j && OpenAbout(db, i, deviceId, signal) && OpenAbout(db, j, deviceId, signal) ::
      FarApart(db.incidents[i], db.incidents[j])
  }

  // What a scan that found nothing says: every such incident was opened too long ago.
  ghost predicate Clear(db: Db, a: Anomaly, since: int) {
    forall i | OpenAbout(db, i, a.deviceId, a.signal) :: db.incidents[i].openedAt < since - TEN_MINUTES
  }

  ghost predicate OriginsOk(db: Db, clients: map<nat, Busy>) {
    forall c | c in clients && HoldsIncident(clients[c].stage) ::
      var copy := clients[c].stage.copy; copy.id in db.incidents && SameOrigin(copy, db.incidents[copy.id])
  }

  ghost predicate ScansOk(db: Db, clients: map<nat, Busy>) {
    forall c | c in clients && clients[c].stage.Opening? :: Clear(db, clients[c].stage.anomaly, clients[c].since)
  }

  ghost predicate Apart(w: World) {
    Spaced(w.db) && OriginsOk(w.db, w.clients) && ScansOk(w.db, w.clients)
  }

  // Stored incidents keep their origin and signal, and stay closed.
  ghost predicate Keeps(db: Db, db': Db) {
    forall i | i in db.incidents ::
      && i in db'.incidents && SameOrigin(db.incidents[i], db'.incidents[i])
      && SignalOf(db'.anomalies, db'.incidents[i]) == SignalOf(db.anomalies, db.incidents[i])
      && (db.incidents[i].status == Closed ==> db'.incidents[i].status == Closed)
  }

  lemma KeepsOpenAbout(db: Db, db': Db, i: string, deviceId: string, signal: string)
    requires Keeps(db, db') && i in db.incidents && OpenAbout(db', i, deviceId, signal)
    ensures OpenAbout(db, i, deviceId, signal) && db'.incidents[i].openedAt == db.incidents[i].openedAt
  {
  }

  // Pairs of incidents that were stored before stay far apart.
  lemma SpacedStays(db: Db, db': Db)
    requires Spaced(db) && Keeps(db, db')
    ensures forall i, j, deviceId, signal | i in db.incidents && j in db.incidents && i != j && OpenAbout(db', i, deviceId, signal) && OpenAbout(db', j, deviceId, signal) ::
              FarApart(db'.incidents[i], db'.incidents[j])
  {
    hide Keeps, SignalOf;
    forall i, j, deviceId, signal | i in db.incidents && j in db.incidents && i != j && OpenAbout(db', i, deviceId, signal) && OpenAbout(db', j, deviceId, signal)
      ensures FarApart(db'.incidents[i], db'.incidents[j])
    {
      KeepsOpenAbout(db, db', i, deviceId, signal);
      KeepsOpenAbout(db, db', j, deviceId, signal);
      assert FarApart(db.incidents[i], db.incidents[j]);
    }
  }

  lemma ClearStays(db: Db, db': Db, a: Anomaly, since: int)
    requires Clear(db, a, since) && Keeps(db, db')
    requires forall i | i in db'.incidents && i !in db.incidents :: !OpenAbout(db', i, a.deviceId, a.signal)
    ensures Clear(db', a, since)
  {
    hide Keeps, SignalOf;
    forall i | OpenAbout(db', i, a.deviceId, a.signal) ensures db'.incidents[i].openedAt < since - TEN_MINUTES {
      assert i in db.incidents;
      KeepsOpenAbout(db, db', i, a.deviceId, a.signal);
    }
  }

  // ----- Each step keeps the origins -----

  lemma SameIncidentsKeep(db: Db, db': Db, now: int)
    requires IncidentsOk(db, now) && Grows(db, db') && db'.incidents == db.incidents
    ensures Keeps(db, db')
  {
    forall i | i in db.incidents
      ensures SameOrigin(db.incidents[i], db.incidents[i]) && SignalOf(db'.anomalies, db.incidents[i]) == SignalOf(db.anomalies, db.incidents[i])
    {
      assert Good(db.anomalies, db.actions, db.evidence, now, db.incidents[i]);
      assert CopyOk(db, now, db.incidents[i]);
      hide Grows, SignalOf;
      CopyIsStable(db, db', now, now, db.incidents[i]);
    }
  }

  lemma OfferedHasOrigin(stage: Stage, at: int, stored: Incident)
    requires Offered(stage, at).Some? && SameOrigin(stage.copy, stored)
    ensures SameOrigin(Offered(stage, at).value, stored)
  {
    OfferedEvolves(stage, at);
    hide Offered;
  }

  // A write that keeps the origin and revives nothing.
  lemma WritingKeeps(db: Db, now: int, i: Incident)
    requires IncidentsOk(db, now) && i.id in db.incidents && SameOrigin(i, db.incidents[i.id])
    requires db.incidents[i.id].status == Closed ==> i.status == Closed
    ensures Keeps(db, db.(incidents := db.incidents[i.id := i]))
  {
    Same(db);
    SameIncidentsKeep(db, db, now);
    hide Grows, Good;
  }

  lemma OpenAboutStored(db: Db)
    ensures forall i, deviceId, signal :: OpenAbout(db, i, deviceId, signal) ==> i in db.incidents
  {
  }

  // What a client's next stage rests on: the origin of its copy, and what its scan said.
  ghost predicate StageFits(db: Db, stage: Option<Stage>, since: int) {
    stage.Some? ==>
      && (HoldsIncident(stage.value) ==>
            stage.value.copy.id in db.incidents && SameOrigin(stage.value.copy, db.incidents[stage.value.copy.id]))
      && (stage.value.Opening? ==> Clear(db, stage.value.anomaly, since))
  }

  ghost predicate StepKeeps(db: Db, result: (Db, Option<Stage>), since: int) {
    Keeps(db, result.0) && result.0.incidents.Keys == db.incidents.Keys && StageFits(result.0, result.1, since)
  }

  // A step that opens nothing: only client c moves.
  lemma ApartStays(db: Db, db': Db, clients: map<nat, Busy>, c: nat, stage: Option<Stage>, end: int)
    requires Spaced(db) && OriginsOk(db, clients) && ScansOk(db, clients) && StepKeeps(db, (db', stage), end)
    ensures Spaced(db') && OriginsOk(db', Placed(clients, c, stage, end)) && ScansOk(db', Placed(clients, c, stage, end))
  {
    SpacedStays(db, db');
    hide Clear, OpenAbout;
    assert Spaced(db') by {
      OpenAboutStored(db');
      hide Keeps, OriginsOk, ScansOk, StageFits;
    }
    hide Spaced;
    var clients' := Placed(clients, c, stage, end);
    forall d | d in clients' && d != c && clients'[d].stage.Opening?
      ensures Clear(db', clients'[d].stage.anomaly, clients'[d].since)
    {
      ClearStays(db, db', clients'[d].stage.anomaly, clients'[d].since);
    }
  }

  lemma StoredHasOrigin(db: Db, now: int, i: string)
    requires IncidentsOk(db, now) && i in db.incidents
    ensures db.incidents[i].id == i && SameOrigin(db.incidents[i], db.incidents[i])
  {
    hide PeakSeverity, ListsOwn, Justified;
    assert ListsFindings(db.anomalies, db.incidents[i]);
  }

  // The stage a call begins with holds a stored incident, or none, and opens nothing.
  lemma BegunStage(db: Db, r: Request)
    ensures var (db', stage) := Begun(db, r);
            && db'.incidents == db.incidents
            && (stage.Some? ==> !stage.value.Opening?)
            && (stage.Some? && HoldsIncident(stage.value) ==> exists i :: i in db.incidents && stage.value.copy == db.incidents[i])
  {
  }

  lemma BegunFits(db: Db, now: int, end: int, r: Request)
    requires StoreOk(db, now) && now <= end
    ensures StepKeeps(db, Begun(db, r), end)
  {
    BegunIsOk(db, now, end, r);
    BegunStage(db, r);
    hide Good, BudgetsOk, StageOk, Begun, Grows;
    SameIncidentsKeep(db, Begun(db, r).0, now);
    forall i | i in db.incidents ensures SameOrigin(db.incidents[i], db.incidents[i]) && db.incidents[i].id == i {
      StoredHasOrigin(db, now, i);
    }
    hide Keeps, SameOrigin, IncidentsOk, Clear;
  }

  lemma ScanIsClear(db: Db, now: int, a: Anomaly, at: int, since: int)
    requires IncidentsOk(db, now) && db.MayFind(a.deviceId, a.signal, at - TEN_MINUTES, None) && at <= since
    ensures Clear(db, a, since)
  {
    forall i | OpenAbout(db, i, a.deviceId, a.signal) ensures db.incidents[i].openedAt < since - TEN_MINUTES {
      StoredHasOrigin(db, now, i);
      assert db.SignalOf(db.incidents[i].anomalyIds[0]) == a.signal by { FirstIsStored(db, now, i); }
      assert !db.Mergeable(i, a.deviceId, a.signal, at - TEN_MINUTES);
    }
  }

  lemma FirstIsStored(db: Db, now: int, i: string)
    requires IncidentsOk(db, now) && i in db.incidents && db.incidents[i].anomalyIds != []
    ensures db.incidents[i].anomalyIds[0] in db.anomalies
  {
    hide PeakSeverity, ListsOwn, Justified, NoRepeats;
    assert ListsFindings(db.anomalies, db.incidents[i]);
    assert db.incidents[i].anomalyIds[0] in db.incidents[i].anomalyIds;
  }

  lemma ScanFits(db: Db, now: int, a: Anomaly, at: int, end: int, c: Choice)
    requires IncidentsOk(db, now) && db.MayFind(a.deviceId, a.signal, at - TEN_MINUTES, c.found) && at <= end
    ensures StepKeeps(db, Advanced(db, Detected(a), at, c), end)
  {
    hide Good;
    Same(db);
    SameIncidentsKeep(db, db, now);
    if c.found.Some? {
      StoredHasOrigin(db, now, c.found.value);
    } else {
      ScanIsClear(db, now, a, at, end);
    }
    hide Keeps, Clear, IncidentsOk, SameOrigin;
  }

  lemma WriteFits(db: Db, now: int, stage: Stage, at: int, end: int, c: Choice)
    requires IncidentsOk(db, now) && StageFits(db, Some(stage), end)
    requires stage.Merging? || stage.Moving? || stage.AttachingAction? || stage.AttachingEvidence?
    requires Offered(stage, at).Some? ==> (db.incidents[stage.copy.id].status == Closed ==> Offered(stage, at).value.status == Closed)
    ensures StepKeeps(db, Advanced(db, stage, at, c), end)
  {
    OfferIsWritten(db, stage, at);
    hide Good, Write, Offered;
    if Offered(stage, at).Some? {
      OfferedHasOrigin(stage, at, db.incidents[stage.copy.id]);
      WritingKeeps(db, now, Offered(stage, at).value);
    } else {
      Same(db);
      SameIncidentsKeep(db, db, now);
    }
    hide Keeps, IncidentsOk;
  }

  // The remaining steps change no incident; a client goes on with the copy it has.
  lemma QuietFits(db: Db, now: int, since: int, at: int, end: int, stage: Stage, c: Choice)
    requires StoreOk(db, now) && StageOk(db, since, stage) && since <= at <= end && now <= end && StageFits(db, Some(stage), end)
    requires stage.Linking? || stage.Acting? || stage.Gathering? || stage.Starting? || stage.Finishing? || stage.Cancelling?
    ensures StepKeeps(db, Advanced(db, stage, at, c), end)
  {
    AdvancedIsOk(db, now, since, at, end, stage, c);
    QuietKeepsIncidents(db, stage, at, c);
    hide Good, BudgetsOk, StageOk, Advanced, Grows;
    SameIncidentsKeep(db, Advanced(db, stage, at, c).0, now);
    hide Keeps, IncidentsOk;
  }

  lemma QuietKeepsIncidents(db: Db, stage: Stage, at: int, c: Choice)
    requires stage.Linking? || stage.Acting? || stage.Gathering? || stage.Starting? || stage.Finishing? || stage.Cancelling?
    ensures var (db', next) := Advanced(db, stage, at, c);
            && db'.incidents == db.incidents
            && (next.Some? ==> !next.value.Opening? && (HoldsIncident(next.value) ==> HoldsIncident(stage) && next.value.copy == stage.copy))
  {
    hide NewAction, NewEvidence, Action.Start, Action.Finish, Action.Simulate, Action.Cancel;
  }

  // ----- Opening -----

  // An incident newly stored by a client that had been told there was none.
  ghost predicate Opens(db: Db, a: Anomaly, i: Incident, since: int) {
    && a.id in db.anomalies && SameFinding(db.anomalies[a.id], a)
    && i.id !in db.incidents && i.deviceId == a.deviceId && i.anomalyIds == [a.id] && i.openedAt >= since
  }

  lemma NewOpenAbout(db: Db, a: Anomaly, i: Incident, since: int, deviceId: string, signal: string)
    requires Opens(db, a, i, since)
    ensures var db' := db.(incidents := db.incidents[i.id := i]);
            && (OpenAbout(db', i.id, deviceId, signal) ==> deviceId == a.deviceId && signal == a.signal)
            && forall j | j != i.id :: OpenAbout(db', j, deviceId, signal) <==> OpenAbout(db, j, deviceId, signal)
  {
  }

  lemma OpeningSpaces(db: Db, a: Anomaly, i: Incident, since: int)
    requires Opens(db, a, i, since) && Spaced(db) && Clear(db, a, since)
    ensures Spaced(db.(incidents := db.incidents[i.id := i]))
  {
    hide Opens, OpenAbout;
    var db' := db.(incidents := db.incidents[i.id := i]);
    assert i.openedAt >= since && i.id !in db.incidents by { OpensMeans(db, a, i, since); }
    OpenAboutStored(db');
    forall j, k, deviceId, signal | j != k && OpenAbout(db', j, deviceId, signal) && OpenAbout(db', k, deviceId, signal)
      ensures FarApart(db'.incidents[j], db'.incidents[k])
    {
      NewOpenAbout(db, a, i, since, deviceId, signal);
      OpenAboutStored(db);
    }
  }

  lemma OpensMeans(db: Db, a: Anomaly, i: Incident, since: int)
    requires Opens(db, a, i, since)
    ensures i.openedAt >= since && i.id !in db.incidents
  {
  }

  lemma OpeningClears(db: Db, a: Anomaly, i: Incident, since: int, b: Anomaly, since': int)
    requires Opens(db, a, i, since) && Clear(db, b, since') && !AboutSame(b, a)
    ensures Clear(db.(incidents := db.incidents[i.id := i]), b, since')
  {
    hide OpenAbout, Opens;
    NewOpenAbout(db, a, i, since, b.deviceId, b.signal);
    OpenAboutStored(db);
  }

  lemma OpeningKeepsOrigins(db: Db, clients: map<nat, Busy>, c: nat, a: Anomaly, i: Incident, since: int, linked: Anomaly, end: int)
    requires Opens(db, a, i, since) && OriginsOk(db, clients)
    ensures OriginsOk(db.(incidents := db.incidents[i.id := i]), clients[c := Busy(Linking(linked), end)])
  {
  }

  // What a step that opens an incident stores.
  lemma OpeningStores(w: World, e: Event)
    requires Sound(w) && Can(w, e) && e.Step? && w.clients[e.client].stage.Opening? && Next(w, e).db != w.db
    ensures var a := w.clients[e.client].stage.anomaly;
            var made := NewIncident(e.choice.id, a.deviceId, Calls.IncidentTitle(a.signal), a.severity, a.id, e.at);
            && made.Ok? && Opens(w.db, a, made.value, w.clients[e.client].since)
            && Next(w, e).db == w.db.(incidents := w.db.incidents[made.value.id := made.value])
            && Next(w, e).clients == w.clients[e.client := Busy(Linking(a.(incidentId := made.value.id)), e.end)]
  {
    assert StageOk(w.db, w.clients[e.client].since, w.clients[e.client].stage);
    hide TrimSpace, StoreOk, ClientsOk;
  }

  lemma OpenIsApart(w: World, e: Event)
    requires Sound(w) && Apart(w) && Can(w, e) && !Crosses(w, e) && e.Step? && w.clients[e.client].stage.Opening?
    requires Next(w, e).db != w.db
    ensures Apart(Next(w, e))
  {
    OpeningStores(w, e);
    var a, since := w.clients[e.client].stage.anomaly, w.clients[e.client].since;
    var i := NewIncident(e.choice.id, a.deviceId, Calls.IncidentTitle(a.signal), a.severity, a.id, e.at).value;
    assert Clear(w.db, a, since);
    hide Clear, Spaced, OriginsOk, Opens, NewIncident, Next, Sound, Can;
    OpeningSpaces(w.db, a, i, since);
    OpeningKeepsOrigins(w.db, w.clients, e.client, a, i, since, a.(incidentId := i.id), e.end);
    var w' := Next(w, e);
    forall d | d in w'.clients && w'.clients[d].stage.Opening? ensures Clear(w'.db, w'.clients[d].stage.anomaly, w'.clients[d].since) {
      OpeningClears(w.db, a, i, since, w.clients[d].stage.anomaly, w.clients[d].since);
    }
  }

  // ----- Every step, and every run -----

  // A step that opens nothing, as StepKeeps describes it.
  lemma PlacedIsApart(w: World, c: nat, result: (Db, Option<Stage>), end: int)
    requires Apart(w) && StepKeeps(w.db, result, end)
    ensures Apart(World(result.0, Placed(w.clients, c, result.1, end), end))
  {
    hide StepKeeps, Spaced, OriginsOk, ScansOk;
    ApartStays(w.db, result.0, w.clients, c, result.1, end);
  }

  lemma BeginIsApart(w: World, e: Event)
    requires Sound(w) && Apart(w) && Can(w, e) && e.Begin?
    ensures Apart(Next(w, e))
  {
    BegunFits(w.db, w.now, e.end, e.request);
    PlacedIsApart(w, e.client, Begun(w.db, e.request), e.end);
    hide Apart, StoreOk, ClientsOk, Begun, StepKeeps;
  }

  lemma HeldFits(w: World, c: nat, end: int)
    requires Apart(w) && c in w.clients && !w.clients[c].stage.Opening?
    ensures StageFits(w.db, Some(w.clients[c].stage), end)
  {
    hide Spaced, ScansOk;
  }

  lemma AdvanceFits(w: World, e: Event)
    requires Sound(w) && Apart(w) && Can(w, e) && !Revives(w, e) && e.Step? && !w.clients[e.client].stage.Opening?
    ensures StepKeeps(w.db, Advanced(w.db, w.clients[e.client].stage, e.at, e.choice), e.end)
  {
    var b := w.clients[e.client];
    HeldFits(w, e.client, e.end);
    assert StageOk(w.db, b.since, b.stage);
    OfferIsForCopy(b.stage, e.at);
    hide Apart, StageFits, StageOk, StoreOk, ClientsOk, Offered, Advanced, StepKeeps, Db.MayFind;
    StageAdvances(w.db, w.now, b, e.at, e.end, e.choice);
  }

  lemma StageAdvances(db: Db, now: int, b: Busy, at: int, end: int, c: Choice)
    requires StoreOk(db, now) && StageOk(db, b.since, b.stage) && StageFits(db, Some(b.stage), end)
    requires b.since <= at <= end && now <= end && !b.stage.Opening?
    requires b.stage.Detected? ==> db.MayFind(b.stage.anomaly.deviceId, b.stage.anomaly.signal, at - TEN_MINUTES, c.found)
    requires Offered(b.stage, at).Some? && Offered(b.stage, at).value.id in db.incidents ==>
               (db.incidents[Offered(b.stage, at).value.id].status == Closed ==> Offered(b.stage, at).value.status == Closed)
    ensures StepKeeps(db, Advanced(db, b.stage, at, c), end)
  {
    hide StageFits, StageOk, IncidentsOk, BudgetsOk, Offered, Advanced, StepKeeps, Db.MayFind;
    if b.stage.Detected? {
      ScanFits(db, now, b.stage.anomaly, at, end, c);
    } else if b.stage.Merging? || b.stage.Moving? || b.stage.AttachingAction? || b.stage.AttachingEvidence? {
      OfferIsForCopy(b.stage, at);
      CopyIsStored(db, b.stage, end);
      WriteFits(db, now, b.stage, at, end, c);
    } else {
      QuietFits(db, now, b.since, at, end, b.stage, c);
    }
  }

  lemma OfferIsForCopy(stage: Stage, at: int)
    ensures Offered(stage, at).Some? ==> Offered(stage, at).value.id == stage.copy.id
  {
  }

  lemma CopyIsStored(db: Db, stage: Stage, end: int)
    requires StageFits(db, Some(stage), end) && HoldsIncident(stage)
    ensures stage.copy.id in db.incidents
  {
  }

  lemma StepIsApart(w: World, e: Event)
    requires Sound(w) && Apart(w) && Can(w, e) && !Crosses(w, e) && !Revives(w, e)
    ensures Apart(Next(w, e))
  {
    if e.Begin? {
      BeginIsApart(w, e);
    } else if e.Abandon? {
      AbandonIsApart(w, e.client);
      hide Apart;
    } else if w.clients[e.client].stage.Opening? {
      if Next(w, e).db != w.db {
        OpenIsApart(w, e);
      } else {
        AbandonIsApart(w, e.client);
        RefusedOpening(w, e);
        hide Apart, Next;
      }
    } else {
      AdvanceFits(w, e);
      PlacedIsApart(w, e.client, Advanced(w.db, w.clients[e.client].stage, e.at, e.choice), e.end);
      hide Apart, Sound, Advanced, StepKeeps, Crosses, Revives;
    }
  }

  lemma AbandonIsApart(w: World, c: nat)
    requires Apart(w)
    ensures forall now :: Apart(w.(clients := w.clients - {c}, now := now))
  {
    hide Spaced, Clear;
  }

  lemma RefusedOpening(w: World, e: Event)
    requires Can(w, e) && e.Step? && w.clients[e.client].stage.Opening? && Next(w, e).db == w.db
    ensures Next(w, e) == w.(clients := w.clients - {e.client}, now := e.end)
  {
    hide TrimSpace;
  }

  lemma {:induction false} RunIsApart(events: seq<Event>)
    requires CanRun(events) && Orderly(events)
    ensures Apart(Run(events))
  {
    if events != [] {
      hide Apart, Can, Next, Crosses, Revives;
      RunIsApart(events[..|events| - 1]);
      EveryRunIsSound(events[..|events| - 1]);
      StepIsApart(Run(events[..|events| - 1]), events[|events| - 1]);
    }
  }

  /** Open incidents of one device and signal stay more than ten minutes apart under every
      interleaving in which no opening crosses another client's and no closed incident is revived. */
  lemma OrderlyRunsAreSeparated(events: seq<Event>)
    requires CanRun(events) && Orderly(events)
    ensures Separated(Run(events).db.anomalies, Run(events).db.incidents)
  {
    RunIsApart(events);
    hide CanRun, Run, Orderly;
    SpacedIsSeparated(Run(events).db);
  }

  lemma SpacedIsSeparated(db: Db)
    requires Spaced(db)
    ensures Separated(db.anomalies, db.incidents)
  {
    forall i, j | i in db.incidents && j in db.incidents && i != j && db.incidents[i].status != Closed && db.incidents[j].status != Closed
                  && Alike(db.anomalies, db.incidents[i], db.incidents[j])
      ensures FarApart(db.incidents[i], db.incidents[j])
    {
      var deviceId, signal := db.incidents[i].deviceId, SignalOf(db.anomalies, db.incidents[i]);
      assert OpenAbout(db, i, deviceId, signal) && OpenAbout(db, j, deviceId, signal);
    }
  }

  // ----- Two crossing openings -----

  const OTHER := Choice(None, "j")

  // Both clients detect, both are told there is no incident, and both open one.
  const TWICE: seq<Event> := [
    Begin(1, Detect(Finding("a")), 1), Begin(2, Detect(Finding("b")), 1),
    Step(1, 1, MISSED, 1), Step(2, 1, OTHER, 1),
    Step(1, 1, MISSED, 1), Step(2, 1, OTHER, 1)]

  function BothFindings(): Db {
    EMPTY.(anomalies := map["a" := Finding("a"), "b" := Finding("b")])
  }

  function OtherIncident(): Incident {
    OpenedIncident().(id := "j", anomalyIds := ["b"])
  }

  function Nothing(): World {
    World(EMPTY, map[], 0)
  }

  function OneDetected(): World {
    World(EMPTY.(anomalies := map["a" := Finding("a")]), map[1 := Busy(Detected(Finding("a")), 1)], 1)
  }

  function TwoDetected(): World {
    World(BothFindings(), map[1 := Busy(Detected(Finding("a")), 1), 2 := Busy(Detected(Finding("b")), 1)], 1)
  }

  function OneTold(): World {
    World(BothFindings(), map[1 := Busy(Opening(Finding("a")), 1), 2 := Busy(Detected(Finding("b")), 1)], 1)
  }

  function TwoTold(): World {
    World(BothFindings(), map[1 := Busy(Opening(Finding("a")), 1), 2 := Busy(Opening(Finding("b")), 1)], 1)
  }

  function OneOpened(): World {
    World(BothFindings().(incidents := map["i" := OpenedIncident()]),
          map[1 := Busy(Linking(LinkedTo("a")), 1), 2 := Busy(Opening(Finding("b")), 1)], 1)
  }

  function TwoOpened(): World {
    World(BothFindings().(incidents := map["i" := OpenedIncident(), "j" := OtherIncident()]),
          map[1 := Busy(Linking(LinkedTo("a")), 1), 2 := Busy(Linking(Finding("b").(incidentId := "j")), 1)], 1)
  }

  lemma TwoDetect()
    ensures Can(Nothing(), TWICE[0]) && Next(Nothing(), TWICE[0]) == OneDetected()
    ensures Can(OneDetected(), TWICE[1]) && Next(OneDetected(), TWICE[1]) == TwoDetected()
  {
  }

  lemma TwoAreTold()
    ensures Can(TwoDetected(), TWICE[2]) && Next(TwoDetected(), TWICE[2]) == OneTold()
    ensures Can(OneTold(), TWICE[3]) && Next(OneTold(), TWICE[3]) == TwoTold()
  {
  }

  lemma FirstOpens()
    ensures Can(TwoTold(), TWICE[4]) && Next(TwoTold(), TWICE[4]) == OneOpened()
  {
    IncidentIsMade();
    hide NewIncident, TrimSpace;
  }

  lemma SecondIsMade()
    ensures NewIncident("j", "d", Calls.IncidentTitle("temp"), 3, "b", 1) == Ok(OtherIncident())
  {
    NotBlank("j", 0);
    NotBlank("d", 0);
    NotBlank(Calls.IncidentTitle("temp"), 0);
  }

  lemma SecondOpens()
    ensures Can(OneOpened(), TWICE[5]) && Next(OneOpened(), TWICE[5]) == TwoOpened()
  {
    SecondIsMade();
    hide NewIncident, TrimSpace;
  }

  lemma TwiceRun()
    ensures CanRun(TWICE) && Run(TWICE) == TwoOpened()
  {
    TwoDetect();
    TwoAreTold();
    FirstOpens();
    SecondOpens();
    hide Can, Next, OneDetected, TwoDetected, OneTold, TwoTold, OneOpened, TwoOpened;
    assert Leads(OneOpened(), TWICE[5..], TwoOpened());
    assert Leads(TwoTold(), TWICE[4..], TwoOpened());
    assert Leads(OneTold(), TWICE[3..], TwoOpened());
    assert Leads(TwoDetected(), TWICE[2..], TwoOpened());
    assert Leads(OneDetected(), TWICE[1..], TwoOpened());
    LeadsOn([], TWICE, TwoOpened());
    assert [] + TWICE == TWICE;
  }

  /** Two clients told that there is no incident open one each, at the same time. */
  lemma CrossingBreaksTheSeparation()
    ensures CanRun(TWICE) && !Separated(Run(TWICE).db.anomalies, Run(TWICE).db.incidents)
  {
    TwiceRun();
    hide CanRun, Run, TrimSpace;
    var db := TwoOpened().db;
    assert Alike(db.anomalies, db.incidents["i"], db.incidents["j"]);
  }
}
