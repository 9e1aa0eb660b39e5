/**
 * Runs from a fresh service that show where the guarantees end: an anomaly left without an
 * incident, a policy overtaken while it is published, and a rollup whose number is taken.
 */
module Witnesses {
  import opened Basics
  import opened Decimal
  import opened Domain
  import opened Store
  import opened Telemetry
  import opened Calls
  import opened Linkage
  import opened Happenings
  import opened Guarantees

  const T := TEN_MINUTES + 1

  lemma Extends(s: State, act: Act, after: State)
    requires Reachable(s) && Does(s, act, after)
    ensures Reachable(after)
  {
    hide Does, Initial;
    var s0, calls :| Initial(s0) && CanRun(s0, calls) && s == Run(s0, calls);
    RunExtends(s0, calls, act, after);
  }

  lemma FreshIsReachable(s: State)
    requires Initial(s)
    ensures Reachable(s)
  {
    assert CanRun(s, []) && Run(s, []) == s;
  }

  // ----- A device and a stream -----

  function Started(): State {
    State(EMPTY, 0, T, [], [], 16, 1, true, {})
  }

  function Sensor(): Device {
    Device("d", "n", "s", "m", Pending, None, 0, 1, T, T)
  }

  function Readied(): Device {
    Sensor().(status := Ready, version := 2)
  }

  function Feed(): Stream {
    Stream("t", "d", "n", "x", "u", 1, Active, 1, T, T)
  }

  function WithDevice(d: Device): State {
    Started().(db := EMPTY.(devices := map["d" := d]))
  }

  function WithStream(): State {
    WithDevice(Readied()).(db := WithDevice(Readied()).db.(streams := map["t" := Feed()]))
  }

  lemma OneLetter(c: char)
    requires !IsSpace(c)
    ensures TrimSpace([c]) == [c] && !Blank([c])
  {
  }

  lemma DeviceIsMade()
    ensures NewDevice("d", "n", "s", "m", T) == Ok(Sensor())
  {
    OneLetter('d');
    OneLetter('n');
    OneLetter('s');
    OneLetter('m');
  }

  lemma StreamIsMade()
    ensures NewStream("t", "d", "n", "x", "u", 1, T) == Ok(Feed())
  {
    OneLetter('t');
    OneLetter('d');
    OneLetter('n');
    OneLetter('x');
    OneLetter('u');
  }

  lemma DeviceRun()
    ensures Reachable(WithDevice(Sensor()))
  {
    FreshIsReachable(Started());
    DeviceIsMade();
    hide Reachable, NewDevice;
    Extends(Started(), Act.CreateDevice("d", "n", "s", "m", T), WithDevice(Sensor()));
  }

  lemma StreamRun()
    ensures Reachable(WithStream())
  {
    DeviceRun();
    StreamIsMade();
    hide Reachable, NewStream;
    Extends(WithDevice(Sensor()), Act.TransitionDevice("d", Ready, T), WithDevice(Readied()));
    Extends(WithDevice(Readied()), Act.CreateStream("t", "d", "n", "x", "u", 1, T), WithStream());
  }

  // ----- A policy in force -----

  const RULE := Rule("x", Above, 1.0, 1.0, 1, 3)

  function Drafted(id: string, from: int): Policy {
    Policy(id, "n", "d", 1, Draft, from, None, [RULE], 0, "a", T, T)
  }

  function Input(id: string, from: int): PolicyInput {
    PolicyInput(id, "n", "d", 1, from, [RULE], 0)
  }

  function InEffect(id: string): Policy {
    Drafted(id, T).(status := Published)
  }

  lemma PolicyIsMade(c: char, from: int)
    requires !IsSpace(c)
    ensures NewPolicy([c], "n", "d", "a", 1, [RULE], 0, from, T) == Ok(Drafted([c], from))
  {
    OneLetter(c);
    OneLetter('n');
    OneLetter('d');
    OneLetter('x');
    assert RULE.Valid();
  }

  function WithPolicy(p: Policy): State {
    WithStream().(db := WithStream().db.(policies := map["p" := p]))
  }

  lemma DraftRun()
    ensures Reachable(WithPolicy(Drafted("p", 0)))
  {
    StreamRun();
    PolicyIsMade('p', 0);
    hide Reachable, NewPolicy;
    Extends(WithStream(), Act.CreatePolicy("a", Input("p", 0), T), WithPolicy(Drafted("p", 0)));
  }

  lemma PolicyRun()
    ensures Reachable(WithPolicy(InEffect("p")))
  {
    DraftRun();
    hide Reachable;
    Extends(WithPolicy(Drafted("p", 0)), Act.PublishPolicy("p", T, None, T), WithPolicy(InEffect("p")));
  }

  // ----- A sample outside the bounds -----

  function Reading(): Sample {
    Sample("t", "d", "x", 5.0, "good", T - 1, T, 1)
  }

  const READING := SampleInput("t", 5.0, "good", T - 1, 1)

  function Touched(): Device {
    Readied().(lastSeenAt := Some(T), version := 3)
  }

  function WithReading(): State {
    var s := WithPolicy(InEffect("p"));
    s.(db := s.db.(devices := map["d" := Touched()], samples := [Reading()]), jobs := [Evaluation("t", "d")])
  }

  lemma ReadingIsVetted(db: Db)
    requires db.streams == map["t" := Feed()] && db.devices == map["d" := Readied()]
    ensures Vet(db, [READING], T) == Ok([Reading()])
  {
    OneLetter('t');
    OneLetter('d');
    OneLetter('x');
    hide TrimSpace;
    assert VetOne(db, READING, T) == Ok(Reading());
    hide VetOne;
    assert [READING][..0] == [];
    assert Vet(db, [], T) == Ok([]);
    assert [] + [Reading()] == [Reading()];
  }

  lemma ReadingIsIngested()
    ensures AfterIngest(WithPolicy(InEffect("p")), [READING], T, [Touch("t", true, T)]) == WithReading()
  {
    var s := WithPolicy(InEffect("p"));
    ReadingIsVetted(s.db);
    hide Vet;
    var s1 := s.(db := s.db.AddSamples([Reading()]));
    assert [Touch("t", true, T)][..0] == [];
    assert AfterTouches(s1, [], T) == s1;
    assert AfterOneTouch(s1, Touch("t", true, T), T) == WithReading();
  }

  lemma TouchesMatch()
    ensures TouchesFit([Touch("t", true, T)], [READING], T, T)
  {
    var touches := [Touch("t", true, T)];
    forall id ensures id in StreamsOf([READING]) <==> exists i | 0 <= i < |touches| :: touches[i].streamId == id {
      assert touches[0].streamId == "t" && [READING][0].streamId == "t";
    }
  }

  lemma ReadingRun()
    ensures Reachable(WithReading())
  {
    PolicyRun();
    ReadingIsIngested();
    TouchesMatch();
    hide Reachable, AfterIngest, TouchesFit, Vet;
    Extends(WithPolicy(InEffect("p")), Act.IngestTelemetry([READING], T, [Touch("t", true, T)]), WithReading());
  }

  // ----- Its evaluation -----

  function View(): Window {
    Window("d", "t", "x", T - FIVE_MINUTES, T, 1, 5.0, 5.0, 5.0, 5.0, 0)
  }

  function Origin(): Source {
    Source("t", "d", "x", "p", View())
  }

  const HIT := Detection(0, 3)

  lemma ReadingIsListed()
    ensures Listed([Reading()], "t", T - FIVE_MINUTES, T, 500) == [Reading()]
  {
    assert [Reading()][..0] == [];
    assert NewestFirst([], "t", T - FIVE_MINUTES, T) == [];
  }

  lemma ReadingHasView()
    ensures WindowOf([Reading()], T - FIVE_MINUTES, T) == Ok(View())
  {
    var s := [Reading()];
    assert s[..0] == [];
    assert InRange(s, T - FIVE_MINUTES, T) == s;
    assert Sum(s) == 5.0 && Mean(s) == 5.0;
    assert Lowest(5.0, s) == 5.0 && Highest(5.0, s) == 5.0 && Bad(s) == 0;
  }

  lemma ViewIsHit()
    ensures Detections(View(), [RULE]) == [HIT]
  {
    assert [RULE][..0] == [];
    assert Detections(View(), []) == [];
  }

  lemma ReadingIsFound()
    ensures FindingsOf(WithReading().db, "t", "d", Some("p"), T) == Findings(Origin(), [HIT])
  {
    ReadingIsListed();
    ReadingHasView();
    ViewIsHit();
    hide Listed, WindowOf, Detections;
  }

  // The loop's one turn, with a context that has just ended, and with a live one.
  const DEAD := Pick(T, T, false, T, None, T)
  const LIVE := Pick(T, T, true, T, None, T)

  function Evaluate(p: Pick): Act {
    Act.EvaluateTelemetry("t", "d", T, Some("p"), T, [p])
  }

  lemma ScanFinds()
    ensures WithReading().db.MayBeActive("d", T, Some("p"))
  {
  }

  lemma TurnFits(p: Pick)
    requires p == DEAD || p == LIVE
    ensures PickFits(WithReading(), Origin(), HIT, p) && PicksFit(WithReading(), Origin(), [HIT], [p])
    ensures AfterPicks(WithReading(), Origin(), [HIT], [p]) == AfterOnePick(WithReading(), Origin(), HIT, p)
  {
    hide NumberedId;
    assert [HIT][..0] == [] && [p][..0] == [];
    assert PickFits(WithReading(), Origin(), HIT, p);
    hide PickFits, AfterOnePick;
    assert PicksFit(WithReading(), Origin(), [], []) && AfterPicks(WithReading(), Origin(), [], []) == WithReading();
  }

  lemma ReadingIsNow()
    ensures WithReading().now == T && WithReading().(now := T) == WithReading()
  {
  }

  lemma EvaluationCanHappen(p: Pick)
    requires p == DEAD || p == LIVE
    ensures EvaluationFits(WithReading(), Evaluate(p), T)
  {
    ReadingIsFound();
    ScanFinds();
    TurnFits(p);
    ReadingIsNow();
    hide WithReading, FindingsOf, Db.MayBeActive, PicksFit, PickFits, AfterPicks, AfterOnePick, Origin;
  }

  lemma EvaluationIsOneTurn(p: Pick)
    requires p == DEAD || p == LIVE
    ensures AfterEvaluate(WithReading(), Evaluate(p)) == AfterOnePick(WithReading(), Origin(), HIT, p)
  {
    ReadingIsFound();
    TurnFits(p);
    ReadingIsNow();
    hide WithReading, FindingsOf, PicksFit, PickFits, AfterPicks, AfterOnePick, Origin;
  }

  lemma ExtendsByEvaluation(s: State, act: Act, after: State)
    requires Reachable(s) && act.EvaluateTelemetry? && s.now <= after.now
    requires EvaluationFits(s, act, after.now) && after == AfterEvaluate(s, act).(now := after.now)
    ensures Reachable(after)
  {
    assert Does(s, act, after) by { hide EvaluationFits, AfterEvaluate, Reachable; }
    hide Reachable, Does;
    Extends(s, act, after);
  }

  lemma EvaluationRun(p: Pick)
    requires p == DEAD || p == LIVE
    ensures Reachable(AfterOnePick(WithReading(), Origin(), HIT, p))
  {
    ReadingRun();
    EvaluationCanHappen(p);
    EvaluationIsOneTurn(p);
    TurnEndsNow(p);
    ReadingIsNow();
    hide Reachable, WithReading, EvaluationFits, AfterEvaluate, AfterOnePick, Origin;
    ExtendsByEvaluation(WithReading(), Evaluate(p), AfterOnePick(WithReading(), Origin(), HIT, p));
  }

  lemma TurnEndsNow(p: Pick)
    requires p == DEAD || p == LIVE
    ensures AfterOnePick(WithReading(), Origin(), HIT, p).now == T
  {
    hide NumberedId, NewIncident;
  }

  /** A context that ends before the correlation leaves an anomaly without an incident. */
  lemma EndedContextLeavesAnOrphan()
    ensures exists s :: Reachable(s) && Orphans(s.db.anomalies) != {} && !Partition(s.db.anomalies, s.db.incidents)
  {
    EvaluationRun(DEAD);
    var s := AfterOnePick(WithReading(), Origin(), HIT, DEAD);
    hide Reachable, NumberedId;
    var id := NumberedId("anomaly", 1);
    assert s.db.anomalies == map[id := AnomalyFor(1, Origin(), HIT, DEAD)] && s.db.incidents == map[];
    assert id in Orphans(s.db.anomalies) && id in s.db.anomalies;
  }

  // ----- A number taken by a caller -----

  function Id(): string {
    NumberedId("incident", 2)
  }

  function Opened(): Incident {
    Incident(Id(), "d", TrimSpace(IncidentTitle("x")), 3, Open, [NumberedId("anomaly", 1)], [], [], T, T, None, None, 1)
  }

  function WithIncident(): State {
    var s := WithReading();
    s.(sequence := 2, jobs := s.jobs + [EvidenceRollup(Id())],
       db := s.db.(anomalies := map[NumberedId("anomaly", 1) := AnomalyFor(1, Origin(), HIT, LIVE).(incidentId := Id())], incidents := map[Id() := Opened()]))
  }

  lemma IncidentIsMade()
    ensures NewIncident(Id(), "d", IncidentTitle("x"), 3, NumberedId("anomaly", 1), T) == Ok(Opened())
  {
    OneLetter('d');
    assert Id()[0] == 'i' && IncidentTitle("x")[0] == 'T';
    NotBlank(Id(), 0);
    NotBlank(IncidentTitle("x"), 0);
  }

  lemma IncidentIsOpened()
    ensures AfterOnePick(WithReading(), Origin(), HIT, LIVE) == WithIncident()
  {
    IncidentIsMade();
    hide NumberedId, NewIncident, TrimSpace;
  }

  const NOTE := EvidenceInput("evidence-3", OperatorNote, "t", "b", "s")

  function Noted(): Evidence {
    Evidence("evidence-3", Id(), OperatorNote, "t", "b", "s", T)
  }

  function WithNote(): State {
    var s := WithIncident();
    s.(db := s.db.(evidence := map["evidence-3" := Noted()], incidents := map[Id() := Opened().(evidenceIds := ["evidence-3"], version := 2)]))
  }

  lemma NoteIsMade()
    ensures NewEvidence("evidence-3", Id(), OperatorNote, "t", "b", "s", T) == Ok(Noted())
  {
    OneLetter('t');
    OneLetter('b');
    OneLetter('s');
    assert Id()[0] == 'i' && "evidence-3"[0] == 'e';
    NotBlank(Id(), 0);
    NotBlank("evidence-3", 0);
  }

  lemma NoteIsAttached()
    ensures AfterAddEvidence(WithIncident().db, Id(), NOTE, T, T) == WithNote().db
  {
    NoteIsMade();
    hide NewEvidence, TrimSpace, Id, NumberedId, AnomalyFor;
    assert [] + ["evidence-3"] == ["evidence-3"];
  }

  lemma NoteHappens()
    ensures Does(WithIncident(), Act.AddEvidence(Id(), NOTE, T, T), WithNote())
  {
    NoteIsAttached();
    hide AfterAddEvidence, Id, AnomalyFor, Opened, Noted;
  }

  lemma IncidentRun()
    ensures Reachable(WithIncident())
  {
    EvaluationRun(LIVE);
    IncidentIsOpened();
    hide Reachable, AfterOnePick;
  }

  lemma NoteRun()
    ensures Reachable(WithNote())
  {
    IncidentRun();
    NoteHappens();
    hide Reachable, Does;
    Extends(WithIncident(), Act.AddEvidence(Id(), NOTE, T, T), WithNote());
  }

  lemma TakenNumber()
    ensures WithNote().sequence == 2 && NumberedId("evidence", 3) in WithNote().db.evidence
    ensures Id() in WithNote().db.incidents && WithNote().db.incidents[Id()].status == Open && EvidenceRollup(Id()) in WithNote().jobs
  {
    hide Id;
    assert NumberedId("evidence", 3) == "evidence-3" by { assert Digits(3) == ['3']; }
    assert WithNote().jobs[1] == EvidenceRollup(Id());
  }

  /** The rollup of an open incident stores nothing when a caller has used the number it draws. */
  lemma TakenNumberStoresNothing()
    ensures var s, i := WithNote(), Id();
            && Reachable(s) && i in s.db.incidents && s.db.incidents[i].status == Open
            && EvidenceRollup(i) in s.jobs && AfterRollup(s, i, s.now, s.now).db == s.db
  {
    NoteRun();
    TakenNumber();
    hide Reachable, Id, WithNote, AfterRollup;
    RollupStoresUnlessTaken(WithNote(), Id(), WithNote().now, WithNote().now);
  }

  // ----- A policy that takes effect between two readings -----

  function Rival(): Policy {
    Drafted("q", T + 50).(status := Published)
  }

  function WithPolicies(policies: map<string, Policy>): State {
    WithDevice(Sensor()).(db := WithDevice(Sensor()).db.(policies := policies))
  }

  lemma RivalDraftRun()
    ensures Reachable(WithPolicies(map["q" := Drafted("q", T + 50)]))
  {
    DeviceRun();
    PolicyIsMade('q', T + 50);
    hide Reachable, NewPolicy;
    Extends(WithDevice(Sensor()), Act.CreatePolicy("a", Input("q", T + 50), T), WithPolicies(map["q" := Drafted("q", T + 50)]));
  }

  lemma RivalRun()
    ensures Reachable(WithPolicies(map["q" := Rival()]))
  {
    RivalDraftRun();
    hide Reachable;
    Extends(WithPolicies(map["q" := Drafted("q", T + 50)]), Act.PublishPolicy("q", T, None, T), WithPolicies(map["q" := Rival()]));
  }

  lemma RivalsRun()
    ensures Reachable(WithPolicies(map["q" := Rival(), "p" := Drafted("p", 0)]))
  {
    RivalRun();
    PolicyIsMade('p', 0);
    hide Reachable, NewPolicy;
    Extends(WithPolicies(map["q" := Rival()]), Act.CreatePolicy("a", Input("p", 0), T), WithPolicies(map["q" := Rival(), "p" := Drafted("p", 0)]));
  }

  /** A policy published as effective can fail to become the only answer: another one took effect in between. */
  lemma PublishMayBeOvertaken()
    ensures exists s, id, scanned, at, other :: Reachable(s) && s.now <= scanned <= at && id in s.db.policies
              && s.db.MayBeActive(s.db.policies[id].deviceId, scanned, None) && s.db.policies[id].status == Draft && s.db.policies[id].effectiveFrom <= at
              && Overtakes(s.db.policies, other, id, scanned, at)
              && !OnlyAnswer(AfterPublish(s.db, id, None, at), s.db.policies[id].deviceId, at, id)
  {
    RivalsRun();
    var s := WithPolicies(map["q" := Rival(), "p" := Drafted("p", 0)]);
    hide Reachable;
    assert s.db.MayBeActive("d", T, None);
    assert Overtakes(s.db.policies, "q", "p", T, T + 100);
    hide OnlyAnswer, AfterPublish, Db.MayBeActive;
    PublishedIsAnswer(s, "p", T, None, T + 100);
  }
}
