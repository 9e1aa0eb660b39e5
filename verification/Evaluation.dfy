/** Whole evaluations: the loop over detections, the window it works on, and the orphans it leaves. */
module Evaluation {
  import opened Basics
  import opened Decimal
  import opened Domain
  import opened Store
  import opened Telemetry
  import opened Calls
  import opened Linkage
  import opened Invariant
  import opened Preservation

  ghost predicate Rated(ds: seq<Detection>) {
    forall k | 0 <= k < |ds| :: 1 <= ds[k].severity <= 5
  }

  ghost predicate NoOrphanLeft(deviceId: string, picks: seq<Pick>) {
    forall k | 0 <= k < |picks| :: !LeavesOrphan(deviceId, picks[k])
  }

  lemma TurnFramesCompose(a: State, b: State, c: State)
    requires TurnFrame(a, b) && TurnFrame(b, c)
    ensures TurnFrame(a, c)
  {
    IncidentsEvolveTwice(a.db.incidents, b.db.incidents, c.db.incidents);
    hide IncidentsEvolve;
  }

  lemma IncidentsEvolveTwice(a: Incidents, b: Incidents, c: Incidents)
    requires IncidentsEvolve(a, b) && IncidentsEvolve(b, c)
    ensures IncidentsEvolve(a, c)
  {
  }

  lemma NoTurn(s: State)
    requires Base(s)
    ensures Kept(s, s) && TurnFrame(s, s)
  {
    hide Base;
    NothingChanges(s.db);
  }

  lemma {:induction false} PicksKeep(s: State, src: Source, ds: seq<Detection>, picks: seq<Pick>)
    requires Base(s) && |ds| == |picks| && PicksFit(s, src, ds, picks)
    ensures Kept(s, AfterPicks(s, src, ds, picks)) && TurnFrame(s, AfterPicks(s, src, ds, picks))
    ensures AfterPicks(s, src, ds, picks).now == if picks == [] then s.now else picks[|picks| - 1].stamped
  {
    hide Base, Evolves, TurnFrame, AfterOnePick, PickFits;
    if ds == [] {
      NoTurn(s);
    } else {
      var last := |ds| - 1;
      var before := AfterPicks(s, src, ds[..last], picks[..last]);
      PicksKeep(s, src, ds[..last], picks[..last]);
      OneTurnKeeps(before, src, ds[last], picks[last]);
      KeptTwice(s, before, AfterPicks(s, src, ds, picks));
      TurnFramesCompose(s, before, AfterPicks(s, src, ds, picks));
    }
  }

  /** An evaluation leaves every anomaly linked exactly when no turn has a dead context or a blank device. */
  lemma {:induction false} PicksOrphans(s: State, src: Source, ds: seq<Detection>, picks: seq<Pick>)
    requires Base(s) && |ds| == |picks| && PicksFit(s, src, ds, picks) && Rated(ds)
    ensures Orphans(s.db.anomalies) <= Orphans(AfterPicks(s, src, ds, picks).db.anomalies)
    ensures Orphans(AfterPicks(s, src, ds, picks).db.anomalies) == Orphans(s.db.anomalies) <==> NoOrphanLeft(src.deviceId, picks)
  {
    hide Base, Kept, TurnFrame, AfterOnePick, PickFits, Orphans, LeavesOrphan;
    if ds != [] {
      var last := |ds| - 1;
      var before := AfterPicks(s, src, ds[..last], picks[..last]);
      PicksOrphans(s, src, ds[..last], picks[..last]);
      PicksKeep(s, src, ds[..last], picks[..last]);
      assert Base(before) by { KeptHasBase(s, before); }
      TurnOrphans(before, src, ds[last], picks[last]);
      FreshIsNoOrphan(before, src, ds[last], picks[last]);
      OrphansPersist(s, before);
      assert forall k | 0 <= k < last :: picks[..last][k] == picks[k];
    }
  }

  lemma KeptHasBase(s: State, s': State)
    requires Kept(s, s')
    ensures Base(s')
  {
    hide Base;
  }

  lemma FreshIsNoOrphan(s: State, src: Source, d: Detection, p: Pick)
    requires Base(s)
    ensures TurnAnomaly(s, src, d, p).id !in Orphans(s.db.anomalies)
  {
    FreshIn(s, s.sequence + 1);
    hide Base;
  }

  lemma OrphansPersist(s: State, s': State)
    requires TurnFrame(s, s')
    ensures Orphans(s.db.anomalies) <= Orphans(s'.db.anomalies)
  {
    hide IncidentsEvolve, KeepsWork, SameEvaluations;
  }

  // ----- The window an evaluation works on -----

  /** In the pipeline the listed samples all lie in the window and come from the one stream. */
  lemma EvaluationLists(s: State, streamId: string, windowEnd: int)
    requires Base(s) && streamId in s.db.streams && s.now <= windowEnd
    ensures PipelineList(Listed(s.db.samples, streamId, windowEnd - FIVE_MINUTES, windowEnd, 500), windowEnd - FIVE_MINUTES, windowEnd)
    ensures forall x | x in Listed(s.db.samples, streamId, windowEnd - FIVE_MINUTES, windowEnd, 500) ::
              x.streamId == streamId && x.deviceId == s.db.streams[streamId].deviceId && x.signal == s.db.streams[streamId].signal
  {
    hide CoreOk, JobsOk, DevicesOk, PoliciesOk, ActionsOk, EvidenceOk;
    ListedAreSelected(s.db.samples, streamId, windowEnd - FIVE_MINUTES, windowEnd);
    var list := Listed(s.db.samples, streamId, windowEnd - FIVE_MINUTES, windowEnd, 500);
    assert Blank("");
    forall x | x in list
      ensures Within(x, windowEnd - FIVE_MINUTES, windowEnd) && x.streamId == streamId
      ensures x.deviceId == s.db.streams[streamId].deviceId && x.signal == s.db.streams[streamId].signal
    {
      assert x in NewestFirst(s.db.samples, streamId, windowEnd - FIVE_MINUTES, windowEnd);
      assert SampleOk(x, s.db.streams);
    }
    forall i | 0 <= i < |list| ensures Within(list[i], windowEnd - FIVE_MINUTES, windowEnd) && SameSource(list[i], list[0]) {
      assert list[i] in list && list[0] in list;
    }
  }

  // The window of a list, unless that is empty: exact, and of the signal.
  ghost predicate WindowFits(list: seq<Sample>, start: int, end: int, signal: string) {
    && (WindowOf(list, start, end).Ok? <==> list != [])
    && (list != [] ==>
          && ExactWindow(WindowOf(list, start, end).value, list) && WindowOf(list, start, end).value.signal == signal
          && WindowOf(list, start, end).value.startedAt == start && WindowOf(list, start, end).value.endedAt == end)
  }

  lemma StreamWindow(s: State, streamId: string, windowEnd: int)
    requires Base(s) && streamId in s.db.streams && s.now <= windowEnd
    ensures var start := windowEnd - FIVE_MINUTES;
            WindowFits(Listed(s.db.samples, streamId, start, windowEnd, 500), start, windowEnd, s.db.streams[streamId].signal)
  {
    var start := windowEnd - FIVE_MINUTES;
    var list := Listed(s.db.samples, streamId, start, windowEnd, 500);
    EvaluationLists(s, streamId, windowEnd);
    hide Base, Listed, WindowOf;
    PipelineWindow(list, start, windowEnd);
    if list != [] {
      assert list[0] in list;
    }
  }

  /** An evaluation finds no window only when its policy, its stream or every sample is missing. */
  lemma EvaluationFinds(s: State, streamId: string, deviceId: string, found: Option<string>, windowEnd: int)
    requires Base(s) && s.now <= windowEnd
    ensures FindingsOf(s.db, streamId, deviceId, found, windowEnd) == Nothing <==>
              || found == None || found.value !in s.db.policies || streamId !in s.db.streams
              || Listed(s.db.samples, streamId, windowEnd - FIVE_MINUTES, windowEnd, 500) == []
    ensures FindingsOf(s.db, streamId, deviceId, found, windowEnd) != Nothing ==>
              var list := Listed(s.db.samples, streamId, windowEnd - FIVE_MINUTES, windowEnd, 500);
              var Findings(src, ds) := FindingsOf(s.db, streamId, deviceId, found, windowEnd);
              list != [] && ExactWindow(src.window, list) && src.signal == src.window.signal && Rated(ds)
  {
    hide Base, Listed, ExactWindow, WindowOf, Rated;
    if found.Some? && found.value in s.db.policies && streamId in s.db.streams {
      StreamWindow(s, streamId, windowEnd);
      var start := windowEnd - FIVE_MINUTES;
      var list := Listed(s.db.samples, streamId, start, windowEnd, 500);
      if list != [] {
        DetectionsAreRated(s, found.value, WindowOf(list, start, windowEnd).value);
      }
    }
  }

  lemma DetectionsAreRated(s: State, policyId: string, w: Window)
    requires Base(s) && policyId in s.db.policies
    ensures Rated(Detections(w, s.db.policies[policyId].rules))
  {
    hide CoreOk, JobsOk, DevicesOk, StreamsOk, SamplesOk, ActionsOk, EvidenceOk, Blank;
    var rules := s.db.policies[policyId].rules;
    assert PolicyOk(s.db.policies[policyId]);
    DetectionsAreExact(w, rules);
    var found := Detections(w, rules);
    forall k | 0 <= k < |found| ensures 1 <= found[k].severity <= 5 {
      assert found[k].ruleIndex < |rules|;
      assert rules[found[k].ruleIndex].Valid();
    }
  }

  lemma EvaluateKeeps(s: State, act: Act, end: int)
    requires Base(s) && act.EvaluateTelemetry? && Fits(s, act, end)
    ensures Kept(s, AfterEvaluate(s, act)) && KeepsWork(s, AfterEvaluate(s, act)) && SameEvaluations(s, AfterEvaluate(s, act))
         && AfterEvaluate(s, act).now <= end
  {
    hide Base, Evolves, AfterPicks, PicksFit, FindingsOf, KeepsWork, IncidentsEvolve, AnomaliesFixed, SameEvaluations, Db.MayBeActive;
    NoTurn(s);
    match FindingsOf(s.db, act.streamId, act.deviceId, act.found, act.windowEnd)
    case Nothing =>
    case Findings(src, ds) =>
      if |ds| == |act.picks| {
        var s1 := s.(now := act.windowEnd);
        Later(s, act.windowEnd, s.sequence);
        PicksKeep(s1, src, ds, act.picks);
        KeptTwice(s, s1, AfterEvaluate(s, act));
        SameWork(s, s1, AfterEvaluate(s, act));
      }
  }

  lemma SameWork(s: State, s1: State, s': State)
    requires s1 == s.(now := s1.now) && KeepsWork(s1, s') && SameEvaluations(s1, s')
    ensures KeepsWork(s, s') && SameEvaluations(s, s')
  {
  }

  /** An evaluation adds no orphan exactly when all its correlations run to the end. */
  lemma EvaluateOrphans(s: State, act: Act, end: int)
    requires Base(s) && act.EvaluateTelemetry? && Fits(s, act, end)
    ensures Orphans(s.db.anomalies) <= Orphans(AfterEvaluate(s, act).db.anomalies)
    ensures Orphans(AfterEvaluate(s, act).db.anomalies) == Orphans(s.db.anomalies) <==> NoOrphanLeft(act.deviceId, act.picks)
  {
    EvaluationFinds(s, act.streamId, act.deviceId, act.found, act.windowEnd);
    Later(s, act.windowEnd, s.sequence);
    EvaluationSource(s.db, act.streamId, act.deviceId, act.found, act.windowEnd);
    hide Base, Evolves, AfterPicks, PicksFit, FindingsOf, Orphans, Db.MayBeActive, LeavesOrphan, Listed, ExactWindow, Rated, NoOrphanLeft;
    match FindingsOf(s.db, act.streamId, act.deviceId, act.found, act.windowEnd)
    case Nothing =>
    case Findings(src, ds) => PicksOrphans(s.(now := act.windowEnd), src, ds, act.picks);
  }

  lemma EvaluationSource(db: Db, streamId: string, deviceId: string, found: Option<string>, windowEnd: int)
    ensures FindingsOf(db, streamId, deviceId, found, windowEnd).Findings? ==>
              var src := FindingsOf(db, streamId, deviceId, found, windowEnd).src; src.deviceId == deviceId && src.streamId == streamId
  {
    hide Listed, WindowOf;
  }

  // ----- What an evaluation returns -----

  // The anomalies a loop over detections stores, one by one, as they are before being linked.
  ghost function Recorded(s: State, src: Source, ds: seq<Detection>, picks: seq<Pick>): seq<Anomaly>
    requires |ds| == |picks|
  {
    if ds == [] then []
    else
      var last := |ds| - 1;
      var before := AfterPicks(s, src, ds[..last], picks[..last]);
      var a := AnomalyFor(before.sequence + 1, src, ds[last], picks[last]);
      Recorded(s, src, ds[..last], picks[..last]) + if NumberedId("anomaly", before.sequence + 1) in before.db.anomalies then [] else [a]
  }

  ghost function Answer(s: State, act: Act): seq<Anomaly>
    requires act.EvaluateTelemetry?
  {
    match FindingsOf(s.db, act.streamId, act.deviceId, act.found, act.windowEnd)
    case Nothing => []
    case Findings(src, ds) => if |ds| == |act.picks| then Recorded(s.(now := act.windowEnd), src, ds, act.picks) else []
  }

  ghost function Ids(anomalies: seq<Anomaly>): set<string> {
    set a | a in anomalies :: a.id
  }

  lemma IdsSplit(anomalies: seq<Anomaly>, a: Anomaly)
    ensures Ids([]) == {} && Ids(anomalies + [a]) == Ids(anomalies) + {a.id}
  {
    var more := anomalies + [a];
    assert a in more && forall x :: x in more <==> x in anomalies || x == a;
  }

  lemma CorrelateLeavesAnomalies(s: State, a: Anomaly, p: Pick)
    ensures Correlate(s, a, p).0.db.anomalies == s.db.anomalies
  {
    IncidentsLeaveAnomalies(s.db);
    hide NewIncident, Incident.AddAnomaly, NumberedId, IncidentTitle, Db.PutIncident, Db.UpdateIncident;
  }

  lemma IncidentsLeaveAnomalies(db: Db)
    ensures forall i: Incident :: db.UpdateIncident(i).Or(db).anomalies == db.anomalies
    ensures forall i: Incident | db.PutIncident(i).Ok? :: db.PutIncident(i).value.anomalies == db.anomalies
  {
  }

  // A turn adds the anomaly of its number and no other.
  lemma TurnAdds(s: State, src: Source, d: Detection, p: Pick)
    ensures AfterOnePick(s, src, d, p).db.anomalies.Keys == s.db.anomalies.Keys + {NumberedId("anomaly", s.sequence + 1)}
  {
    hide Correlate, NumberedId;
    var a := AnomalyFor(s.sequence + 1, src, d, p);
    CorrelateLeavesAnomalies(s.(sequence := s.sequence + 1, now := p.stamped, db := s.db.(anomalies := s.db.anomalies[a.id := a])), a, p);
  }

  lemma OneMoreRecorded(s: State, src: Source, ds: seq<Detection>, picks: seq<Pick>)
    requires |ds| == |picks| && ds != []
    ensures var last := |ds| - 1;
            var before := AfterPicks(s, src, ds[..last], picks[..last]);
            var a := AnomalyFor(before.sequence + 1, src, ds[last], picks[last]);
            && AfterPicks(s, src, ds, picks) == AfterOnePick(before, src, ds[last], picks[last])
            && a.id == NumberedId("anomaly", before.sequence + 1)
            && Recorded(s, src, ds, picks) == Recorded(s, src, ds[..last], picks[..last]) + if a.id in before.db.anomalies then [] else [a]
  {
    hide AfterOnePick, NumberedId;
  }

  lemma {:induction false} RecordedAreAdded(s: State, src: Source, ds: seq<Detection>, picks: seq<Pick>)
    requires |ds| == |picks|
    ensures AfterPicks(s, src, ds, picks).db.anomalies.Keys == s.db.anomalies.Keys + Ids(Recorded(s, src, ds, picks))
  {
    if ds == [] {
      assert Ids([]) == {};
    } else {
      var last := |ds| - 1;
      var before := AfterPicks(s, src, ds[..last], picks[..last]);
      OneMoreRecorded(s, src, ds, picks);
      hide AfterOnePick, NumberedId, AfterPicks, Recorded, AnomalyFor;
      RecordedAreAdded(s, src, ds[..last], picks[..last]);
      TurnAdds(before, src, ds[last], picks[last]);
      IdsSplit(Recorded(s, src, ds[..last], picks[..last]), AnomalyFor(before.sequence + 1, src, ds[last], picks[last]));
    }
  }

  // One anomaly for each detection, in order.
  ghost predicate OneForEach(s: State, src: Source, ds: seq<Detection>, picks: seq<Pick>, result: seq<Anomaly>)
    requires |ds| == |picks|
  {
    && |result| == |ds|
    && forall k | 0 <= k < |ds| :: result[k] == AnomalyFor(AfterPicks(s, src, ds[..k], picks[..k]).sequence + 1, src, ds[k], picks[k])
  }

  lemma OneForEachMore(s: State, src: Source, ds: seq<Detection>, picks: seq<Pick>, result: seq<Anomaly>)
    requires |ds| == |picks| && ds != []
    requires var last := |ds| - 1; OneForEach(s, src, ds[..last], picks[..last], result)
    ensures var last := |ds| - 1;
            OneForEach(s, src, ds, picks, result + [AnomalyFor(AfterPicks(s, src, ds[..last], picks[..last]).sequence + 1, src, ds[last], picks[last])])
  {
    hide AfterPicks, AnomalyFor;
    forall k | 0 <= k < |ds| - 1 ensures ds[..k] == ds[..|ds| - 1][..k] && picks[..k] == picks[..|ds| - 1][..k] {
    }
  }

  lemma LastTurnFits(s: State, src: Source, ds: seq<Detection>, picks: seq<Pick>)
    requires |ds| == |picks| && ds != [] && PicksFit(s, src, ds, picks)
    ensures var last := |ds| - 1;
            PicksFit(s, src, ds[..last], picks[..last]) && PickFits(AfterPicks(s, src, ds[..last], picks[..last]), src, ds[last], picks[last])
  {
    hide PickFits, AfterPicks;
  }

  // The loop numbers afresh, so that it stores an anomaly for every detection.
  lemma {:induction false} EveryDetectionIsRecorded(s: State, src: Source, ds: seq<Detection>, picks: seq<Pick>)
    requires Base(s) && |ds| == |picks| && PicksFit(s, src, ds, picks)
    ensures OneForEach(s, src, ds, picks, Recorded(s, src, ds, picks))
  {
    if ds != [] {
      hide Base, AfterPicks, PicksFit, PickFits, AnomalyFor, NumberedId, OneForEach, Recorded;
      var last := |ds| - 1;
      LastTurnFits(s, src, ds, picks);
      EveryDetectionIsRecorded(s, src, ds[..last], picks[..last]);
      LastIsRecorded(s, src, ds, picks);
      OneForEachMore(s, src, ds, picks, Recorded(s, src, ds[..last], picks[..last]));
    }
  }

  lemma LastIsRecorded(s: State, src: Source, ds: seq<Detection>, picks: seq<Pick>)
    requires Base(s) && |ds| == |picks| && ds != [] && PicksFit(s, src, ds, picks)
    ensures var last := |ds| - 1;
            var before := AfterPicks(s, src, ds[..last], picks[..last]);
            Recorded(s, src, ds, picks) == Recorded(s, src, ds[..last], picks[..last]) + [AnomalyFor(before.sequence + 1, src, ds[last], picks[last])]
  {
    hide Base, AfterPicks, PicksFit, PickFits, AnomalyFor, NumberedId, Recorded;
    var last := |ds| - 1;
    var before := AfterPicks(s, src, ds[..last], picks[..last]);
    OneMoreRecorded(s, src, ds, picks);
    LastTurnFits(s, src, ds, picks);
    PicksKeep(s, src, ds[..last], picks[..last]);
    KeptHasBase(s, before);
    FreshIn(before, before.sequence + 1);
  }

  /** An evaluation returns one anomaly for each detection, in their order, not yet naming its
      incident; these and no others are added to the store. */
  lemma AnswerIsComplete(s: State, act: Act, end: int)
    requires Base(s) && act.EvaluateTelemetry? && Fits(s, act, end)
    ensures AfterEvaluate(s, act).db.anomalies.Keys == s.db.anomalies.Keys + Ids(Answer(s, act))
    ensures match FindingsOf(s.db, act.streamId, act.deviceId, act.found, act.windowEnd)
            case Nothing => Answer(s, act) == []
            case Findings(src, ds) =>
              && |Answer(s, act)| == |ds|
              && forall k | 0 <= k < |ds| ::
                   var a := Answer(s, act)[k];
                   a.ruleIndex == ds[k].ruleIndex && a.severity == ds[k].severity && a.deviceId == act.deviceId && a.streamId == act.streamId && a.incidentId == ""
  {
    Later(s, act.windowEnd, s.sequence);
    EvaluationSource(s.db, act.streamId, act.deviceId, act.found, act.windowEnd);
    hide Base, Evolves, AfterPicks, PicksFit, FindingsOf, Db.MayBeActive, Recorded;
    match FindingsOf(s.db, act.streamId, act.deviceId, act.found, act.windowEnd)
    case Nothing =>
      assert Ids([]) == {};
    case Findings(src, ds) =>
      RecordedAreAdded(s.(now := act.windowEnd), src, ds, act.picks);
      EveryDetectionIsRecorded(s.(now := act.windowEnd), src, ds, act.picks);
  }

  // ----- What an evaluation reports, in terms of the samples and rules -----

  // The samples an evaluation at a time looks at: at most 500 of the last five minutes.
  ghost function LookedAt(db: Db, streamId: string, end: int): seq<Sample> {
    Listed(db.samples, streamId, end - 300_000_000_000, end, 500)
  }

  // The anomaly is of the rule, the stream and the listed samples.
  ghost predicate ReportsOn(a: Anomaly, stream: Stream, deviceId: string, policy: Policy, list: seq<Sample>, end: int)
    requires list != []
  {
    && a.ruleIndex < |policy.rules| && a.severity == policy.rules[a.ruleIndex].severity
    && a.deviceId == deviceId && a.streamId == stream.id && a.signal == stream.signal && a.policyId == policy.id
    && a.observed == list[|list| - 1].value && ExactWindow(a.window, list)
    && a.window.startedAt == end - 300_000_000_000 && a.window.endedAt == end
    && a.status == AnomalyOpen && a.incidentId == ""
  }

  ghost predicate ReportsRule(answer: seq<Anomaly>, i: nat) {
    exists k | 0 <= k < |answer| :: answer[k].ruleIndex == i
  }

  // One anomaly for each rule the samples ask for, in the order of the rules.
  ghost predicate ReportsAll(answer: seq<Anomaly>, policy: Policy, list: seq<Sample>)
    requires list != []
  {
    && (forall i: nat | i < |policy.rules| :: ReportsRule(answer, i) <==> AskedFor(policy.rules[i], list))
    && (forall k, m | 0 <= k < m < |answer| :: answer[k].ruleIndex < answer[m].ruleIndex)
  }

  // The answer is about the policy's rules, as the listed samples ask for them, and about nothing else.
  ghost predicate IsReport(answer: seq<Anomaly>, stream: Stream, deviceId: string, policy: Policy, list: seq<Sample>, end: int)
    requires list != []
  {
    ReportsAll(answer, policy, list) && forall k | 0 <= k < |answer| :: ReportsOn(answer[k], stream, deviceId, policy, list, end)
  }

  lemma FindingsAre(db: Db, streamId: string, deviceId: string, found: string, end: int)
    requires found in db.policies && streamId in db.streams
    ensures var window := WindowOf(LookedAt(db, streamId, end), end - FIVE_MINUTES, end);
            FindingsOf(db, streamId, deviceId, Some(found), end)
            == if window.Err? then Nothing
               else Findings(Source(streamId, deviceId, db.streams[streamId].signal, db.policies[found].id, window.value), Detections(window.value, db.policies[found].rules))
  {
    hide Listed, WindowOf, Detections;
  }

  // The answer made of the detections of a window.
  ghost predicate MadeOf(answer: seq<Anomaly>, src: Source, ds: seq<Detection>) {
    && |answer| == |ds|
    && forall k | 0 <= k < |ds| ::
         var a := answer[k];
         && a.ruleIndex == ds[k].ruleIndex && a.severity == ds[k].severity
         && a.deviceId == src.deviceId && a.streamId == src.streamId && a.signal == src.signal && a.policyId == src.policyId
         && a.observed == src.window.lastValue && a.window == src.window && a.status == AnomalyOpen && a.incidentId == ""
  }

  lemma MadeOfReports(answer: seq<Anomaly>, src: Source, ds: seq<Detection>, stream: Stream, policy: Policy, list: seq<Sample>, end: int)
    requires list != [] && PipelineList(list, end - FIVE_MINUTES, end) && WindowFits(list, end - FIVE_MINUTES, end, stream.signal)
    requires src == Source(stream.id, src.deviceId, stream.signal, policy.id, WindowOf(list, end - FIVE_MINUTES, end).value)
    requires ds == Detections(src.window, policy.rules) && MadeOf(answer, src, ds)
    ensures IsReport(answer, stream, src.deviceId, policy, list, end)
  {
    assert src.window.lastValue == list[|list| - 1].value;
    hide WindowOf, Detections, PipelineList, ExactWindow;
    RulesAreReported(answer, src, ds, policy, list, end - FIVE_MINUTES, end);
    hide ReportsAll;
    forall k | 0 <= k < |answer| ensures ReportsOn(answer[k], stream, src.deviceId, policy, list, end) {
      assert answer[k].ruleIndex == ds[k].ruleIndex;
    }
  }

  lemma RulesAreReported(answer: seq<Anomaly>, src: Source, ds: seq<Detection>, policy: Policy, list: seq<Sample>, start: int, end: int)
    requires PipelineList(list, start, end) && list != [] && WindowOf(list, start, end) == Ok(src.window)
    requires ds == Detections(src.window, policy.rules) && MadeOf(answer, src, ds)
    ensures ReportsAll(answer, policy, list)
    ensures forall k | 0 <= k < |ds| :: ds[k].ruleIndex < |policy.rules| && ds[k].severity == policy.rules[ds[k].ruleIndex].severity
  {
    DetectionsAreExact(src.window, policy.rules);
    forall i: nat | i < |policy.rules| ensures ReportsRule(answer, i) <==> AskedFor(policy.rules[i], list) {
      RuleIsReportedExactly(list, start, end, policy.rules, i);
      hide WindowOf, Detections, AskedFor, PipelineList;
      if Reported(ds, i) {
        var k :| 0 <= k < |ds| && ds[k].ruleIndex == i;
        assert answer[k].ruleIndex == i;
      }
    }
    forall k, m | 0 <= k < m < |answer| ensures answer[k].ruleIndex < answer[m].ruleIndex {
      assert answer[k].ruleIndex == ds[k].ruleIndex && answer[m].ruleIndex == ds[m].ruleIndex;
    }
  }

  /** An evaluation reports nothing without a policy in effect, the stream, or a sample of the last five
      minutes; otherwise it reports exactly the rules its samples ask for, each as an anomaly that says so. */
  lemma EvaluationReportsExactly(s: State, act: Act, end: int)
    requires Base(s) && act.EvaluateTelemetry? && Fits(s, act, end)
    ensures var list := LookedAt(s.db, act.streamId, act.windowEnd);
            if act.found == None || act.streamId !in s.db.streams || list == [] then Answer(s, act) == []
            else act.found.value in s.db.policies
                 && IsReport(Answer(s, act), s.db.streams[act.streamId], act.deviceId, s.db.policies[act.found.value], list, act.windowEnd)
  {
    FoundIsPolicy(s, act, end);
    hide Base, Fits, LookedAt, IsReport, Answer, Reporting;
    if act.found.Some? && act.streamId in s.db.streams {
      FindingsFit(s, act, end);
      FindingsReport(Answer(s, act), LookedAt(s.db, act.streamId, act.windowEnd), s.db.streams[act.streamId], act.deviceId, s.db.policies[act.found.value], act.windowEnd);
    } else {
      NothingIsFound(s, act);
    }
  }

  lemma NothingIsFound(s: State, act: Act)
    requires act.EvaluateTelemetry? && (act.found == None || act.streamId !in s.db.streams)
    ensures Answer(s, act) == []
  {
  }

  lemma FindingsFit(s: State, act: Act, end: int)
    requires Base(s) && act.EvaluateTelemetry? && Fits(s, act, end)
    requires act.found.Some? && act.found.value in s.db.policies && act.streamId in s.db.streams
    ensures s.db.streams[act.streamId].id == act.streamId
    ensures Reporting(Answer(s, act), LookedAt(s.db, act.streamId, act.windowEnd), s.db.streams[act.streamId], act.deviceId,
                      s.db.policies[act.found.value], act.windowEnd)
  {
    hide Base, Fits, LookedAt, WindowOf, Detections, PipelineList, WindowFits, Answer, MadeOf, FindingsOf;
    StreamIsKeyed(s, act.streamId);
    WindowIsFit(s, act, end);
    AnswersMatch(s, act, end);
    assert act.found == Some(act.found.value);
    FindingsAre(s.db, act.streamId, act.deviceId, act.found.value, act.windowEnd);
  }

  lemma WindowIsFit(s: State, act: Act, end: int)
    requires Base(s) && act.EvaluateTelemetry? && Fits(s, act, end) && act.streamId in s.db.streams
    ensures var list := LookedAt(s.db, act.streamId, act.windowEnd);
            && PipelineList(list, act.windowEnd - FIVE_MINUTES, act.windowEnd)
            && WindowFits(list, act.windowEnd - FIVE_MINUTES, act.windowEnd, s.db.streams[act.streamId].signal)
  {
    hide Base, Fits, Listed, PipelineList, WindowFits;
    WindowEndsLater(s, act, end);
    EvaluationLists(s, act.streamId, act.windowEnd);
    StreamWindow(s, act.streamId, act.windowEnd);
  }

  lemma WindowEndsLater(s: State, act: Act, end: int)
    requires act.EvaluateTelemetry? && Fits(s, act, end)
    ensures s.now <= act.windowEnd
  {
    hide FindingsOf, PicksFit, Db.MayBeActive;
  }

  // The listed samples and what is made of them.
  ghost predicate Reporting(answer: seq<Anomaly>, list: seq<Sample>, stream: Stream, deviceId: string, policy: Policy, end: int) {
    var window := WindowOf(list, end - FIVE_MINUTES, end);
    && PipelineList(list, end - FIVE_MINUTES, end) && WindowFits(list, end - FIVE_MINUTES, end, stream.signal)
    && (window.Err? ==> answer == [])
    && (window.Ok? ==> MadeOf(answer, Source(stream.id, deviceId, stream.signal, policy.id, window.value), Detections(window.value, policy.rules)))
  }

  lemma FindingsReport(answer: seq<Anomaly>, list: seq<Sample>, stream: Stream, deviceId: string, policy: Policy, end: int)
    requires Reporting(answer, list, stream, deviceId, policy, end)
    ensures if list == [] then answer == [] else IsReport(answer, stream, deviceId, policy, list, end)
  {
    hide WindowOf, Detections, MadeOf, PipelineList, IsReport, ExactWindow;
    if list != [] {
      var w := WindowOf(list, end - FIVE_MINUTES, end).value;
      MadeOfReports(answer, Source(stream.id, deviceId, stream.signal, policy.id, w), Detections(w, policy.rules), stream, policy, list, end);
    }
  }

  lemma FoundIsPolicy(s: State, act: Act, end: int)
    requires act.EvaluateTelemetry? && Fits(s, act, end)
    ensures act.found.Some? ==> act.found.value in s.db.policies
  {
    hide FindingsOf, PicksFit;
  }

  // Each anomaly returned is made of its detection.
  lemma AnswersMatch(s: State, act: Act, end: int)
    requires Base(s) && act.EvaluateTelemetry? && Fits(s, act, end)
    ensures match FindingsOf(s.db, act.streamId, act.deviceId, act.found, act.windowEnd)
            case Nothing => Answer(s, act) == []
            case Findings(src, ds) => MadeOf(Answer(s, act), src, ds)
  {
    Later(s, act.windowEnd, s.sequence);
    hide Base, Evolves, AfterPicks, PicksFit, FindingsOf, Db.MayBeActive, Recorded;
    match FindingsOf(s.db, act.streamId, act.deviceId, act.found, act.windowEnd)
    case Nothing =>
    case Findings(src, ds) => EveryDetectionIsRecorded(s.(now := act.windowEnd), src, ds, act.picks);
  }

  // ----- What is stored is what is returned -----

  ghost predicate StoredBut(an: map<string, Anomaly>, a: Anomaly) {
    a.id in an && an[a.id] == a.(incidentId := an[a.id].incidentId)
  }

  lemma TurnStoresAnomaly(s: State, src: Source, d: Detection, p: Pick)
    requires Base(s)
    ensures StoredBut(AfterOnePick(s, src, d, p).db.anomalies, AnomalyFor(s.sequence + 1, src, d, p))
  {
    FreshIn(s, s.sequence + 1);
    var a := AnomalyFor(s.sequence + 1, src, d, p);
    CorrelateLeavesAnomalies(s.(sequence := s.sequence + 1, now := p.stamped, db := s.db.(anomalies := s.db.anomalies[a.id := a])), a, p);
    hide Base, Correlate, NumberedId;
  }

  lemma {:induction false} RecordedAreStored(s: State, src: Source, ds: seq<Detection>, picks: seq<Pick>)
    requires Base(s) && |ds| == |picks| && PicksFit(s, src, ds, picks)
    ensures forall a | a in Recorded(s, src, ds, picks) :: StoredBut(AfterPicks(s, src, ds, picks).db.anomalies, a)
  {
    if ds != [] {
      var last := |ds| - 1;
      hide Base, AfterOnePick, AfterPicks, Recorded, PicksFit, PickFits, NumberedId, AnomalyFor, Evolves, StoredBut, TurnFrame;
      var before := AfterPicks(s, src, ds[..last], picks[..last]);
      OneMoreRecorded(s, src, ds, picks);
      LastTurnFits(s, src, ds, picks);
      RecordedAreStored(s, src, ds[..last], picks[..last]);
      PicksKeep(s, src, ds[..last], picks[..last]);
      TurnStoresAnomaly(before, src, ds[last], picks[last]);
      OneTurnKeeps(before, src, ds[last], picks[last]);
      AnomaliesStay(before, AfterPicks(s, src, ds, picks));
    }
  }

  lemma AnomaliesStay(s: State, s': State)
    requires TurnFrame(s, s')
    ensures forall a | StoredBut(s.db.anomalies, a) :: StoredBut(s'.db.anomalies, a)
  {
    hide IncidentsEvolve, KeepsWork, SameEvaluations;
  }

  /** Each anomaly an evaluation returns is stored under its identifier, as it was returned but for its incident. */
  lemma AnswerIsStored(s: State, act: Act, end: int)
    requires Base(s) && act.EvaluateTelemetry? && Fits(s, act, end)
    ensures forall a | a in Answer(s, act) :: StoredBut(AfterEvaluate(s, act).db.anomalies, a)
  {
    Later(s, act.windowEnd, s.sequence);
    hide Base, Evolves, AfterPicks, PicksFit, FindingsOf, Db.MayBeActive, Recorded;
    match FindingsOf(s.db, act.streamId, act.deviceId, act.found, act.windowEnd)
    case Nothing =>
    case Findings(src, ds) => RecordedAreStored(s.(now := act.windowEnd), src, ds, act.picks);
  }
}
