/**
 * Exactly when interleaved calls bring two open incidents of one device and signal within ten
 * minutes of each other: when a step opens an incident, or takes a closed one up again, that
 * close to one that is open.
 */
module Nearness {
  import opened Basics
  import opened Domain
  import opened Store
  import opened IncidentFacts
  import opened Linkage
  import opened Records
  import opened Overtaking
  import opened Spacing

  // The incident a client opens, if its step stores one.
  function Opened(db: Db, a: Anomaly, at: int, id: string): Option<Incident> {
    match NewIncident(id, a.deviceId, Calls.IncidentTitle(a.signal), a.severity, a.id, at)
    case Err(_) => None
    case Ok(i) => if i.id in db.incidents then None else Some(i)
  }

  // The incident a write takes up again, if the stored one is closed.
  function Revived(db: Db, stage: Stage, at: int): Option<Incident> {
    match Offered(stage, at)
    case None => None
    case Some(i) => if i.id in db.incidents && db.incidents[i.id].status == Closed && i.status != Closed then Some(i) else None
  }

  // The incident a step makes open that was not.
  function Raised(w: World, e: Event): Option<Incident> {
    if !e.Step? || e.client !in w.clients then None
    else
      var stage := w.clients[e.client].stage;
      if stage.Opening? then Opened(w.db, stage.anomaly, e.at, e.choice.id) else Revived(w.db, stage, e.at)
  }

  ghost predicate Near(db: Db, i: Incident, j: string) {
    j != i.id && OpenAbout(db, j, i.deviceId, SignalOf(db.anomalies, i)) && !FarApart(db.incidents[j], i)
  }

  // The step makes an incident open within ten minutes of one of its kind.
  ghost predicate Meets(w: World, e: Event) {
    Raised(w, e).Some? && exists j :: Near(w.db, Raised(w, e).value, j)
  }

  ghost predicate NoneMeet(events: seq<Event>) {
    events == [] || (NoneMeet(events[..|events| - 1]) && !Meets(Run(events[..|events| - 1]), events[|events| - 1]))
  }

  // ----- One incident more -----

  function With(db: Db, i: Incident): Db {
    db.(incidents := db.incidents[i.id := i])
  }

  // Incident i was not open before.
  ghost predicate WasNotOpen(db: Db, i: Incident) {
    i.status != Closed && (i.id in db.incidents ==> db.incidents[i.id].status == Closed)
  }

  lemma RaisedIsAbout(db: Db, i: Incident)
    requires WasNotOpen(db, i)
    ensures OpenAbout(With(db, i), i.id, i.deviceId, SignalOf(db.anomalies, i))
    ensures forall deviceId, signal :: OpenAbout(With(db, i), i.id, deviceId, signal) ==> deviceId == i.deviceId && signal == SignalOf(db.anomalies, i)
    ensures forall j, deviceId, signal | j != i.id :: OpenAbout(With(db, i), j, deviceId, signal) <==> OpenAbout(db, j, deviceId, signal)
    ensures forall deviceId, signal :: !OpenAbout(db, i.id, deviceId, signal)
  {
  }

  lemma RaisingSpaces(db: Db, i: Incident)
    requires Spaced(db) && WasNotOpen(db, i)
    ensures Spaced(With(db, i)) <==> !exists j :: Near(db, i, j)
  {
    RaisedIsAbout(db, i);
    OpenAboutStored(db);
    hide OpenAbout, WasNotOpen, SignalOf;
    var db' := With(db, i);
    if j :| Near(db, i, j) {
      assert OpenAbout(db', j, i.deviceId, SignalOf(db.anomalies, i));
    } else {
      forall j, k, deviceId, signal | j != k && OpenAbout(db', j, deviceId, signal) && OpenAbout(db', k, deviceId, signal)
        ensures FarApart(db'.incidents[j], db'.incidents[k])
      {
        assert !Near(db, i, j) && !Near(db, i, k);
      }
    }
  }

  // ----- One step -----

  lemma KeptIsSpaced(db: Db, db': Db)
    requires Spaced(db) && Keeps(db, db') && db'.incidents.Keys == db.incidents.Keys
    ensures Spaced(db')
  {
    SpacedStays(db, db');
    OpenAboutStored(db');
    hide Keeps, OpenAbout, FarApart;
  }

  // A copy fits whatever the client's scan said.
  lemma HeldHasOrigin(w: World, c: nat, end: int)
    requires OriginsOk(w.db, w.clients) && c in w.clients && !w.clients[c].stage.Opening?
    ensures StageFits(w.db, Some(w.clients[c].stage), end)
  {
    hide SameOrigin;
  }

  lemma QuietStepKeeps(w: World, e: Event)
    requires Sound(w) && OriginsOk(w.db, w.clients) && Can(w, e) && e.Step? && !w.clients[e.client].stage.Opening? && Raised(w, e) == None
    ensures StepKeeps(w.db, Advanced(w.db, w.clients[e.client].stage, e.at, e.choice), e.end)
  {
    var b := w.clients[e.client];
    HeldHasOrigin(w, e.client, e.end);
    assert StageOk(w.db, b.since, b.stage);
    hide OriginsOk, StageFits, StageOk, StoreOk, ClientsOk, Offered, Advanced, StepKeeps, Db.MayFind;
    StageAdvances(w.db, w.now, b, e.at, e.end, e.choice);
  }

  lemma RevivingIsWriting(w: World, e: Event)
    requires Can(w, e) && e.Step? && !w.clients[e.client].stage.Opening? && Raised(w, e).Some?
    ensures WasNotOpen(w.db, Raised(w, e).value) && Next(w, e).db == With(w.db, Raised(w, e).value)
  {
    var stage := w.clients[e.client].stage;
    OfferedWrites(w.db, stage, e.at, e.choice);
    hide Offered, Advanced;
  }

  lemma OfferedWrites(db: Db, stage: Stage, at: int, c: Choice)
    requires Offered(stage, at).Some?
    ensures HoldsIncident(stage) && Offered(stage, at).value.id == stage.copy.id
    ensures Advanced(db, stage, at, c).0 == Write(db, stage, at)
    ensures Write(db, stage, at) == db.(incidents := Write(db, stage, at).incidents)
    ensures Offered(stage, at).value.id in db.incidents ==> Write(db, stage, at) == With(db, Offered(stage, at).value)
    ensures Advanced(db, stage, at, c).1.Some? ==> Advanced(db, stage, at, c).1.value.Linking?
  {
    OfferIsWritten(db, stage, at);
    OfferIsForCopy(stage, at);
    hide Write, Incident.AddAnomaly, Incident.Transition, Incident.AttachAction, Incident.AttachEvidence;
  }

  lemma OpeningIsStoring(w: World, e: Event)
    requires Can(w, e) && e.Step? && w.clients[e.client].stage.Opening?
    ensures var made := Raised(w, e);
            if made.None? then Next(w, e) == w.(clients := w.clients - {e.client}, now := e.end)
            else
              && WasNotOpen(w.db, made.value) && made.value.id !in w.db.incidents
              && Next(w, e).db == With(w.db, made.value)
              && Next(w, e).clients == w.clients[e.client := Busy(Linking(w.clients[e.client].stage.anomaly.(incidentId := made.value.id)), e.end)]
  {
    hide TrimSpace;
  }

  /** One step of any client brings open incidents of one device and signal within ten minutes of each
      other exactly when it makes one open that close to one that is. */
  lemma SpacedExactlyUnlessMet(w: World, e: Event)
    requires Sound(w) && OriginsOk(w.db, w.clients) && Spaced(w.db) && Can(w, e)
    ensures Spaced(Next(w, e).db) <==> !Meets(w, e)
  {
    if Raised(w, e).Some? {
      if w.clients[e.client].stage.Opening? {
        OpeningIsStoring(w, e);
      } else {
        RevivingIsWriting(w, e);
      }
      hide Spaced, Next, Raised, WasNotOpen, Near, Sound, OriginsOk, Can;
      RaisingSpaces(w.db, Raised(w, e).value);
    } else if e.Begin? {
      BegunFits(w.db, w.now, e.end, e.request);
      hide Spaced, Keeps, StageFits, Begun, StoreOk, ClientsOk;
      KeptIsSpaced(w.db, Begun(w.db, e.request).0);
    } else if e.Step? && w.clients[e.client].stage.Opening? {
      OpeningIsStoring(w, e);
      hide Spaced, Next, Raised, Near, Sound, OriginsOk;
    } else if e.Step? {
      QuietStepKeeps(w, e);
      hide Spaced, Keeps, StageFits, Advanced, Raised, Sound, OriginsOk;
      KeptIsSpaced(w.db, Advanced(w.db, w.clients[e.client].stage, e.at, e.choice).0);
    }
  }

  // ----- Origins are kept by every step -----

  ghost predicate SameOrigins(db: Db, db': Db) {
    forall i | i in db.incidents :: i in db'.incidents && SameOrigin(db.incidents[i], db'.incidents[i])
  }

  ghost predicate NextHasOrigin(db: Db, stage: Option<Stage>) {
    stage.Some? && HoldsIncident(stage.value) ==>
      stage.value.copy.id in db.incidents && SameOrigin(stage.value.copy, db.incidents[stage.value.copy.id])
  }

  lemma OriginsStay(db: Db, db': Db, clients: map<nat, Busy>, c: nat, stage: Option<Stage>, end: int)
    requires OriginsOk(db, clients) && SameOrigins(db, db') && NextHasOrigin(db', stage)
    ensures OriginsOk(db', Placed(clients, c, stage, end))
  {
  }

  lemma FittingHasOrigins(db: Db, result: (Db, Option<Stage>), end: int)
    requires StepKeeps(db, result, end)
    ensures SameOrigins(db, result.0) && NextHasOrigin(result.0, result.1)
  {
    hide SameOrigin, SignalOf, Clear;
  }

  lemma StoredHaveOrigins(w: World)
    requires Sound(w)
    ensures SameOrigins(w.db, w.db)
  {
    hide Good, BudgetsOk, ClientsOk, SameOrigin;
    forall i | i in w.db.incidents ensures SameOrigin(w.db.incidents[i], w.db.incidents[i]) {
      StoredHasOrigin(w.db, w.now, i);
    }
  }

  lemma WritingHasOrigins(db: Db, i: Incident)
    requires SameOrigins(db, db) && i.id in db.incidents && SameOrigin(i, db.incidents[i.id])
    ensures SameOrigins(db, With(db, i))
  {
  }

  lemma WriteHasOrigins(db: Db, stage: Stage, at: int, c: Choice)
    requires Offered(stage, at).Some? && stage.copy.id in db.incidents && SameOrigin(stage.copy, db.incidents[stage.copy.id]) && SameOrigins(db, db)
    ensures var (db', next) := Advanced(db, stage, at, c); SameOrigins(db, db') && NextHasOrigin(db', next)
  {
    OfferedWrites(db, stage, at, c);
    OfferedHasOrigin(stage, at, db.incidents[stage.copy.id]);
    hide Offered, Advanced, Write, SameOrigin, SameOrigins;
    WritingHasOrigins(db, Offered(stage, at).value);
  }

  lemma RevivingHasOrigins(w: World, e: Event)
    requires Sound(w) && OriginsOk(w.db, w.clients) && Can(w, e) && e.Step? && !w.clients[e.client].stage.Opening? && Raised(w, e).Some?
    ensures OriginsOk(Next(w, e).db, Next(w, e).clients)
  {
    var stage := w.clients[e.client].stage;
    var result := Advanced(w.db, stage, e.at, e.choice);
    StoredHaveOrigins(w);
    OfferedWrites(w.db, stage, e.at, e.choice);
    assert SameOrigin(stage.copy, w.db.incidents[stage.copy.id]);
    hide Sound, Offered, Advanced, OriginsOk, SameOrigin, SameOrigins, NextHasOrigin, Can;
    WriteHasOrigins(w.db, stage, e.at, e.choice);
    OriginsStay(w.db, result.0, w.clients, e.client, result.1, e.end);
  }

  lemma OpeningHasOrigins(w: World, e: Event)
    requires OriginsOk(w.db, w.clients) && Can(w, e) && e.Step? && w.clients[e.client].stage.Opening?
    ensures OriginsOk(Next(w, e).db, Next(w, e).clients)
  {
    OpeningIsStoring(w, e);
    hide Next, Raised, Can, SameOrigin, WasNotOpen;
  }

  lemma StepKeepsOrigins(w: World, e: Event)
    requires Sound(w) && OriginsOk(w.db, w.clients) && Can(w, e)
    ensures OriginsOk(Next(w, e).db, Next(w, e).clients)
  {
    if e.Begin? {
      BegunFits(w.db, w.now, e.end, e.request);
      hide OriginsOk, StepKeeps, Begun, StoreOk, ClientsOk;
      FittingHasOrigins(w.db, Begun(w.db, e.request), e.end);
      OriginsStay(w.db, Begun(w.db, e.request).0, w.clients, e.client, Begun(w.db, e.request).1, e.end);
    } else if e.Abandon? {
      hide Sound, SameOrigin;
    } else if w.clients[e.client].stage.Opening? {
      hide OriginsOk, Next, Sound, Can;
      OpeningHasOrigins(w, e);
    } else if Raised(w, e).Some? {
      hide OriginsOk, Next, Sound, Can;
      RevivingHasOrigins(w, e);
    } else {
      QuietStepKeeps(w, e);
      hide OriginsOk, StepKeeps, Advanced, Sound, Raised;
      var result := Advanced(w.db, w.clients[e.client].stage, e.at, e.choice);
      FittingHasOrigins(w.db, result, e.end);
      OriginsStay(w.db, result.0, w.clients, e.client, result.1, e.end);
    }
  }

  // ----- Every run -----

  lemma {:induction false} EveryRunKeepsOrigins(events: seq<Event>)
    requires CanRun(events)
    ensures OriginsOk(Run(events).db, Run(events).clients)
  {
    if events != [] {
      hide Sound, OriginsOk, Can, Next;
      EveryRunKeepsOrigins(events[..|events| - 1]);
      EveryRunIsSound(events[..|events| - 1]);
      StepKeepsOrigins(Run(events[..|events| - 1]), events[|events| - 1]);
    }
  }

  lemma SeparatedIsSpaced(w: World)
    requires Sound(w)
    ensures Separated(w.db.anomalies, w.db.incidents) <==> Spaced(w.db)
  {
    if Separated(w.db.anomalies, w.db.incidents) {
      forall i, j, deviceId, signal | i != j && OpenAbout(w.db, i, deviceId, signal) && OpenAbout(w.db, j, deviceId, signal)
        ensures FarApart(w.db.incidents[i], w.db.incidents[j])
      {
        ListsItsFindings(w, i);
        ListsItsFindings(w, j);
        hide Sound, ListsFindings, FarApart;
        assert Alike(w.db.anomalies, w.db.incidents[i], w.db.incidents[j]);
      }
    } else {
      hide Sound, Separated, Spaced;
      if Spaced(w.db) {
        SpacedIsSeparated(w.db);
      }
    }
  }

  lemma ListsItsFindings(w: World, i: string)
    requires Sound(w) && i in w.db.incidents
    ensures ListsFindings(w.db.anomalies, w.db.incidents[i])
  {
    hide ListsFindings, PeakSeverity, ListsOwn, Justified, NoRepeats, BudgetsOk, ClientsOk;
  }

  // Open incidents of one device and signal were more than ten minutes apart at every moment of the run.
  ghost predicate AlwaysSeparated(events: seq<Event>) {
    && Separated(Run(events).db.anomalies, Run(events).db.incidents)
    && (events != [] ==> AlwaysSeparated(events[..|events| - 1]))
  }

  /** Under every interleaving open incidents of one device and signal stay more than ten minutes apart
      exactly as long as no step makes one open within ten minutes of another. */
  lemma {:induction false} AlwaysSeparatedExactlyUnlessMet(events: seq<Event>)
    requires CanRun(events)
    ensures AlwaysSeparated(events) <==> NoneMeet(events)
  {
    EveryRunIsSound(events);
    SeparatedIsSpaced(Run(events));
    if events != [] {
      var front, e := events[..|events| - 1], events[|events| - 1];
      hide Sound, OriginsOk, Can, Next, Separated, Spaced, Meets;
      AlwaysSeparatedExactlyUnlessMet(front);
      EveryRunIsSound(front);
      EveryRunKeepsOrigins(front);
      SeparatedIsSpaced(Run(front));
      if AlwaysSeparated(front) {
        assert Separated(Run(front).db.anomalies, Run(front).db.incidents);
        SpacedExactlyUnlessMet(Run(front), e);
      }
    }
  }

  /** A step can come that close only in a run in which an opening crosses another client's, or a
      closed incident is taken up again. */
  lemma OrderlyRunsNeverMeet(events: seq<Event>)
    requires CanRun(events) && Orderly(events)
    ensures NoneMeet(events)
  {
    AlwaysSeparatedExactlyUnlessMet(events);
    OrderlyIsAlwaysSeparated(events);
  }

  lemma {:induction false} OrderlyIsAlwaysSeparated(events: seq<Event>)
    requires CanRun(events) && Orderly(events)
    ensures AlwaysSeparated(events)
  {
    OrderlyRunsAreSeparated(events);
    if events != [] {
      hide Separated, Can, Next, Crosses, Revives;
      OrderlyIsAlwaysSeparated(events[..|events| - 1]);
    }
  }

  // ----- A revival that meets an open incident -----

  // Another client opens an incident of the same kind while i is closed, and links its anomaly.
  const REPLACED: seq<Event> := [
    Begin(2, Detect(Finding("b")), 1), Step(2, 1, OTHER, 1), Step(2, 1, OTHER, 1), Step(2, 1, OTHER, 1)]

  // Then a transition from a copy read before the closing takes i up again.
  const REVIVED: seq<Event> := [Step(1, 1, MISSED, 1)]

  function ClosedIncident(): Incident {
    ResolvedIncident().(status := Closed, closedAt := Some(1), version := 4)
  }

  function ToRevive(): Busy {
    Busy(Moving(ResolvedIncident(), Investigating), 1)
  }

  function OtherDetected(): World {
    World(AfterClosed().db.(anomalies := map["a" := LinkedTo("a"), "b" := Finding("b")]),
          map[1 := ToRevive(), 2 := Busy(Detected(Finding("b")), 1)], 1)
  }

  function OtherTold(): World {
    World(OtherDetected().db, map[1 := ToRevive(), 2 := Busy(Opening(Finding("b")), 1)], 1)
  }

  function OtherOpened(): World {
    World(OtherDetected().db.(incidents := map["i" := ClosedIncident(), "j" := OtherIncident()]),
          map[1 := ToRevive(), 2 := Busy(Linking(Finding("b").(incidentId := "j")), 1)], 1)
  }

  function OtherLinked(): World {
    World(OtherOpened().db.(anomalies := map["a" := LinkedTo("a"), "b" := Finding("b").(incidentId := "j")]), map[1 := ToRevive()], 1)
  }

  function AfterRevival(): World {
    World(OtherLinked().db.(incidents := map["i" := ResolvedIncident().(status := Investigating, version := 4), "j" := OtherIncident()]), map[], 1)
  }

  lemma OtherDetects()
    ensures Can(AfterClosed(), REPLACED[0]) && Next(AfterClosed(), REPLACED[0]) == OtherDetected()
  {
    hide ResolvedIncident, Note;
  }

  lemma OtherIsTold()
    ensures Can(OtherDetected(), REPLACED[1]) && Next(OtherDetected(), REPLACED[1]) == OtherTold()
  {
    assert forall i | i in AfterClosed().db.incidents :: AfterClosed().db.incidents[i].status == Closed;
    hide ResolvedIncident, Note;
  }

  lemma OtherOpens()
    ensures Can(OtherTold(), REPLACED[2]) && Next(OtherTold(), REPLACED[2]) == OtherOpened()
  {
    SecondIsMade();
    hide NewIncident, TrimSpace, Note;
  }

  lemma OtherLinks()
    ensures Can(OtherOpened(), REPLACED[3]) && Next(OtherOpened(), REPLACED[3]) == OtherLinked()
  {
    hide ResolvedIncident, Note, ClosedIncident, OtherIncident;
  }

  lemma ReplacedRun()
    ensures Leads(AfterClosed(), REPLACED, OtherLinked())
  {
    OtherDetects();
    OtherIsTold();
    OtherOpens();
    OtherLinks();
    hide Can, Next, AfterClosed, OtherDetected, OtherTold, OtherOpened, OtherLinked;
    assert Leads(OtherOpened(), REPLACED[3..], OtherLinked());
    assert Leads(OtherTold(), REPLACED[2..], OtherLinked());
    assert Leads(OtherDetected(), REPLACED[1..], OtherLinked());
  }

  lemma RevivedRun()
    ensures Leads(OtherLinked(), REVIVED, AfterRevival())
  {
    hide TrimSpace, Note;
    assert Can(OtherLinked(), REVIVED[0]) && Next(OtherLinked(), REVIVED[0]) == AfterRevival();
    hide Can, Next;
  }

  lemma ClosedRun()
    ensures CanRun(OPENED + NOTED + RESOLVED + REOPENED[..3]) && Run(OPENED + NOTED + RESOLVED + REOPENED[..3]) == AfterClosed()
  {
    OpenedRun();
    NotedRun();
    ResolvedRun();
    ReopenedRun();
    hide CanRun, Run, Leads, TrimSpace, AfterOpened, AfterNoted, AfterResolved, AfterClosed;
    LeadsOn(OPENED, NOTED, AfterNoted());
    LeadsOn(OPENED + NOTED, RESOLVED, AfterResolved());
    LeadsOn(OPENED + NOTED + RESOLVED, REOPENED[..3], AfterClosed());
  }

  lemma ApartBefore()
    ensures Separated(OtherLinked().db.anomalies, OtherLinked().db.incidents)
  {
    hide TrimSpace, Note, Alike, FarApart;
  }

  lemma TogetherAfter()
    ensures !Separated(AfterRevival().db.anomalies, AfterRevival().db.incidents)
  {
    hide TrimSpace, Note;
    var db := AfterRevival().db;
    assert Alike(db.anomalies, db.incidents["i"], db.incidents["j"]);
  }

  /** A closed incident is taken up again after another of its kind was opened in its place at the same time. */
  lemma RevivalBreaksTheSeparation()
    ensures var events := OPENED + NOTED + RESOLVED + REOPENED[..3] + REPLACED;
            && CanRun(events + REVIVED)
            && Separated(Run(events).db.anomalies, Run(events).db.incidents)
            && !Separated(Run(events + REVIVED).db.anomalies, Run(events + REVIVED).db.incidents)
  {
    ReplacedRun();
    RevivedRun();
    ClosedRun();
    hide CanRun, Run, Leads, TrimSpace, AfterClosed, OtherLinked, AfterRevival, Separated;
    LeadsOn(OPENED + NOTED + RESOLVED + REOPENED[..3], REPLACED, OtherLinked());
    LeadsOn(OPENED + NOTED + RESOLVED + REOPENED[..3] + REPLACED, REVIVED, AfterRevival());
    ApartBefore();
    TogetherAfter();
  }
}
