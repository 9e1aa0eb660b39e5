/** What happens to samples over whole runs: vetting, retention, listing and the windows built from them. */
module Sampling {
  import opened Basics
  import opened Decimal
  import opened Domain
  import opened Store
  import opened Telemetry
  import opened Calls
  import opened Invariant
  import opened Evaluation
  import opened Runs
  import opened Guarantees
  import opened Answers

  // ----- All or nothing -----

  // The batch made of every input by itself.
  ghost predicate BatchOf(db: Db, inputs: seq<SampleInput>, now: int, batch: seq<Sample>) {
    && |batch| == |inputs|
    && forall i | 0 <= i < |inputs| :: VetOne(db, inputs[i], now) == Ok(batch[i])
  }

  ghost predicate FirstBad(db: Db, inputs: seq<SampleInput>, now: int, i: nat) {
    && i < |inputs| && VetOne(db, inputs[i], now).Err?
    && forall j | 0 <= j < i :: VetOne(db, inputs[j], now).Ok?
  }

  lemma {:induction false} VettingIsPointwise(db: Db, inputs: seq<SampleInput>, now: int)
    ensures Vet(db, inputs, now).Ok? ==> BatchOf(db, inputs, now, Vet(db, inputs, now).value)
    ensures Vet(db, inputs, now).Err? ==>
              exists i: nat :: FirstBad(db, inputs, now, i) && VetOne(db, inputs[i], now) == Err(Vet(db, inputs, now).error)
  {
    hide VetOne;
    if inputs != [] {
      var last := |inputs| - 1;
      VettingIsPointwise(db, inputs[..last], now);
      if Vet(db, inputs[..last], now).Err? {
        var i: nat :| FirstBad(db, inputs[..last], now, i) && VetOne(db, inputs[..last][i], now) == Err(Vet(db, inputs[..last], now).error);
        assert FirstBad(db, inputs, now, i);
      } else {
        assert forall j | 0 <= j < last :: inputs[..last][j] == inputs[j];
        if VetOne(db, inputs[last], now).Err? {
          assert FirstBad(db, inputs, now, last);
        }
      }
    }
  }

  /** A batch is stored whole, in order, when each of its inputs is acceptable by itself; otherwise nothing at all changes. */
  lemma IngestIsAllOrNothing(s: State, inputs: seq<SampleInput>, at: int, touches: seq<Touch>)
    ensures forall batch | BatchOf(s.db, inputs, at, batch) ::
              AfterIngest(s, inputs, at, touches).db.samples == if inputs == [] then s.db.samples else Suffix(s.db.samples + batch, RETAINED)
    ensures (exists i: nat :: FirstBad(s.db, inputs, at, i)) ==> AfterIngest(s, inputs, at, touches) == s
  {
    hide VetOne, AfterTouches;
    VettingIsPointwise(s.db, inputs, at);
    if Vet(s.db, inputs, at).Ok? {
      var vetted := Vet(s.db, inputs, at).value;
      forall batch | BatchOf(s.db, inputs, at, batch) ensures batch == vetted {
      }
      TouchesLeaveSamples(s.(db := s.db.AddSamples(vetted)), touches, at);
    }
  }

  lemma {:induction false} TouchesLeaveSamples(s: State, touches: seq<Touch>, now: int)
    ensures AfterTouches(s, touches, now).db.samples == s.db.samples
  {
    if touches != [] {
      TouchesLeaveSamples(s, touches[..|touches| - 1], now);
    }
  }

  lemma VetOneIs(db: Db, input: SampleInput, at: int)
    requires DevicesOk(db.devices) && StreamsOk(db.streams, db.devices) && at != 0
    ensures VetOne(db, input, at) == if IsAcceptable(input, db.streams, db.devices) then Ok(SampleFor(input, db.streams, at))
                                     else Err(if input.streamId in db.streams then Invalid else NotFound)
  {
    hide Blank;
  }

  /** A batch is taken in exactly when each input is, as one sample for each, and otherwise the first
      input that is not taken in decides the error. */
  lemma VettingIs(db: Db, inputs: seq<SampleInput>, at: int)
    requires DevicesOk(db.devices) && StreamsOk(db.streams, db.devices) && at != 0 && inputs != []
    ensures Vet(db, inputs, at).Ok? <==> AreAcceptable(inputs, db.streams, db.devices)
    ensures Vet(db, inputs, at).Ok? ==> TakesIn(db.samples, db.AddSamples(Vet(db, inputs, at).value).samples, inputs, db.streams, at)
    ensures Vet(db, inputs, at).Err? ==> exists i: nat :: IsRefusedFor(inputs, db.streams, db.devices, i, Vet(db, inputs, at).error)
  {
    VettingIsPointwise(db, inputs, at);
    forall i | 0 <= i < |inputs| ensures VetOne(db, inputs[i], at) == if IsAcceptable(inputs[i], db.streams, db.devices) then Ok(SampleFor(inputs[i], db.streams, at))
                                                                       else Err(if inputs[i].streamId in db.streams then Invalid else NotFound) {
      VetOneIs(db, inputs[i], at);
    }
    hide VetOne, IsAcceptable, DevicesOk, StreamsOk, Vet;
    if Vet(db, inputs, at).Err? {
      var i: nat :| FirstBad(db, inputs, at, i) && VetOne(db, inputs[i], at) == Err(Vet(db, inputs, at).error);
      assert IsRefusedFor(inputs, db.streams, db.devices, i, Vet(db, inputs, at).error);
    } else {
      assert forall i | 0 <= i < |inputs| :: VetOne(db, inputs[i], at) == Ok(Vet(db, inputs, at).value[i]);
    }
  }

  // ----- Touching and submitting -----

  ghost predicate Seen(devices: map<string, Device>, id: string, at: int) {
    id in devices && devices[id].lastSeenAt == Some(at) && devices[id].failureCount == 0
  }

  // The device a touch concerns.
  ghost function DeviceOf(db: Db, t: Touch): string {
    if t.streamId in db.streams then db.streams[t.streamId].deviceId else ""
  }

  // The stream is stored under its identifier, and so is its device, which is not retired.
  ghost predicate CanTouch(db: Db, t: Touch) {
    && t.streamId in db.streams && db.streams[t.streamId].id == t.streamId
    && var id := DeviceOf(db, t); id in db.devices && db.devices[id].id == id && db.devices[id].status != Retired && db.devices[id].version >= 1
  }

  // Devices keep their place, status and a version.
  ghost predicate StillThere(db: Db, db': Db) {
    && db' == db.(devices := db'.devices) && db'.devices.Keys == db.devices.Keys
    && forall id | id in db.devices :: db'.devices[id].id == db.devices[id].id && db'.devices[id].status == db.devices[id].status && db'.devices[id].version >= db.devices[id].version
  }

  ghost predicate AllSeen(db: Db, touches: seq<Touch>, devices: map<string, Device>, at: int) {
    forall t | t in touches && t.live :: Seen(devices, DeviceOf(db, t), at)
  }

  ghost predicate OthersUnseen(db: Db, touches: seq<Touch>, devices: map<string, Device>) {
    forall id | id in db.devices && (forall t | t in touches && t.live :: DeviceOf(db, t) != id) :: id in devices && devices[id] == db.devices[id]
  }

  ghost predicate Submits(s: State, work: Work) {
    work in s.jobs || work in s.refused
  }

  ghost predicate AllSubmitted(db: Db, touches: seq<Touch>, s: State) {
    forall t | t in touches :: Submits(s, Evaluation(t.streamId, DeviceOf(db, t)))
  }

  /** Every device touched is seen, no other changes, and every evaluation is submitted or refused. */
  lemma {:induction false} TouchesSee(s: State, touches: seq<Touch>, at: int)
    requires forall t | t in touches :: CanTouch(s.db, t)
    ensures var s' := AfterTouches(s, touches, at);
            && StillThere(s.db, s'.db) && AllSeen(s.db, touches, s'.db.devices, at) && OthersUnseen(s.db, touches, s'.db.devices)
            && AllSubmitted(s.db, touches, s')
  {
    hide AfterOneTouch, CanTouch, Submits, Seen, StillThere;
    if touches == [] {
      assert StillThere(s.db, s.db) by { NobodyMoves(s.db); }
    } else {
      var last := |touches| - 1;
      var t, before := touches[last], AfterTouches(s, touches[..last], at);
      TouchesSee(s, touches[..last], at);
      StillTouchable(s.db, before.db, t);
      OneTouchSees(before, t, at);
      ThereTwice(s.db, before.db, AfterTouches(s, touches, at).db);
      assert touches == touches[..last] + [t];
    }
  }

  lemma NobodyMoves(db: Db)
    ensures StillThere(db, db)
  {
  }

  lemma StillTouchable(db: Db, db': Db, t: Touch)
    requires StillThere(db, db') && CanTouch(db, t)
    ensures CanTouch(db', t)
    ensures forall x :: DeviceOf(db', x) == DeviceOf(db, x)
  {
  }

  lemma ThereTwice(a: Db, b: Db, c: Db)
    requires StillThere(a, b) && StillThere(b, c)
    ensures StillThere(a, c)
  {
  }

  lemma OneTouchSees(s: State, t: Touch, at: int)
    requires CanTouch(s.db, t)
    ensures var id, s' := DeviceOf(s.db, t), AfterOneTouch(s, t, at);
            && StillThere(s.db, s'.db) && (t.live ==> Seen(s'.db.devices, id, at))
            && (forall x | Seen(s.db.devices, x, at) :: Seen(s'.db.devices, x, at))
            && (forall x | x in s.db.devices && (x != id || !t.live) :: x in s'.db.devices && s'.db.devices[x] == s.db.devices[x])
            && Submits(s', Evaluation(t.streamId, id)) && forall w | Submits(s, w) :: Submits(s', w)
  {
  }

  // The device of an input's stream.
  ghost function Origin(streams: map<string, Stream>, input: SampleInput): string {
    if input.streamId in streams then streams[input.streamId].deviceId else ""
  }

  // Each input's stream has its evaluation submitted or refused.
  ghost predicate AreAnnounced(inputs: seq<SampleInput>, streams: map<string, Stream>, s: State) {
    forall x | x in inputs :: Submits(s, Evaluation(x.streamId, Origin(streams, x)))
  }

  ghost predicate AreSeen(inputs: seq<SampleInput>, streams: map<string, Stream>, devices: map<string, Device>, at: int) {
    forall x | x in inputs :: Seen(devices, Origin(streams, x), at)
  }

  // No device changes but those of the inputs.
  ghost predicate OnlySeen(inputs: seq<SampleInput>, streams: map<string, Stream>, before: map<string, Device>, after: map<string, Device>) {
    forall id | id in before && (forall x | x in inputs :: Origin(streams, x) != id) :: id in after && after[id] == before[id]
  }

  // The touches and the inputs are of the same streams.
  ghost predicate SameStreams(inputs: seq<SampleInput>, touches: seq<Touch>) {
    (set t | t in touches :: t.streamId) == (set x | x in inputs :: x.streamId)
  }

  lemma TouchOf(inputs: seq<SampleInput>, touches: seq<Touch>, x: SampleInput) returns (t: Touch)
    requires SameStreams(inputs, touches) && x in inputs
    ensures t in touches && t.streamId == x.streamId
  {
    var touched, asked := set t | t in touches :: t.streamId, set y | y in inputs :: y.streamId;
    assert x.streamId in asked && touched == asked;
    t :| t in touches && t.streamId == x.streamId;
  }

  lemma InputOf(inputs: seq<SampleInput>, touches: seq<Touch>, t: Touch) returns (x: SampleInput)
    requires SameStreams(inputs, touches) && t in touches
    ensures x in inputs && x.streamId == t.streamId
  {
    var touched, asked := set u | u in touches :: u.streamId, set y | y in inputs :: y.streamId;
    assert t.streamId in touched && touched == asked;
    x :| x in inputs && x.streamId == t.streamId;
  }

  lemma AnnouncedByTouches(db: Db, inputs: seq<SampleInput>, touches: seq<Touch>, s: State)
    requires SameStreams(inputs, touches) && AllSubmitted(db, touches, s)
    ensures AreAnnounced(inputs, db.streams, s)
  {
    hide Submits;
    forall x | x in inputs ensures Submits(s, Evaluation(x.streamId, Origin(db.streams, x))) {
      var t := TouchOf(inputs, touches, x);
      assert DeviceOf(db, t) == Origin(db.streams, x);
    }
  }

  lemma SeenByTouches(db: Db, inputs: seq<SampleInput>, touches: seq<Touch>, devices: map<string, Device>, at: int)
    requires SameStreams(inputs, touches) && AllSeen(db, touches, devices, at) && forall t | t in touches :: t.live
    ensures AreSeen(inputs, db.streams, devices, at)
  {
    hide Seen;
    forall x | x in inputs ensures Seen(devices, Origin(db.streams, x), at) {
      var t := TouchOf(inputs, touches, x);
      assert DeviceOf(db, t) == Origin(db.streams, x);
    }
  }

  lemma OnlySeenByTouches(db: Db, inputs: seq<SampleInput>, touches: seq<Touch>, devices: map<string, Device>)
    requires SameStreams(inputs, touches) && OthersUnseen(db, touches, devices)
    ensures OnlySeen(inputs, db.streams, db.devices, devices)
  {
    forall id | id in db.devices && (forall x | x in inputs :: Origin(db.streams, x) != id) ensures id in devices && devices[id] == db.devices[id] {
      forall t | t in touches && t.live ensures DeviceOf(db, t) != id {
        var x := InputOf(inputs, touches, t);
        assert DeviceOf(db, t) == Origin(db.streams, x);
      }
    }
  }

  lemma TouchesAreOfInputs(inputs: seq<SampleInput>, touches: seq<Touch>, at: int, end: int)
    requires TouchesFit(touches, inputs, at, end)
    ensures SameStreams(inputs, touches)
  {
    var touched, asked := set t | t in touches :: t.streamId, set x | x in inputs :: x.streamId;
    forall id ensures id in touched <==> id in StreamsOf(inputs) {
      if id in touched {
        var t :| t in touches && t.streamId == id;
      }
      if id in StreamsOf(inputs) {
        var k :| 0 <= k < |touches| && touches[k].streamId == id;
        assert touches[k] in touches;
      }
    }
    forall id ensures id in asked <==> id in StreamsOf(inputs) {
      if id in StreamsOf(inputs) {
        var i :| 0 <= i < |inputs| && inputs[i].streamId == id;
        assert inputs[i] in inputs;
      }
    }
  }

  lemma AcceptableCanBeTouched(db: Db, inputs: seq<SampleInput>, touches: seq<Touch>)
    requires DevicesOk(db.devices) && StreamsOk(db.streams, db.devices) && AreAcceptable(inputs, db.streams, db.devices) && SameStreams(inputs, touches)
    ensures forall samples, t | t in touches :: CanTouch(db.(samples := samples), t)
  {
    hide Blank;
    forall samples, t | t in touches ensures CanTouch(db.(samples := samples), t) {
      var x := InputOf(inputs, touches, t);
      assert IsAcceptable(x, db.streams, db.devices);
    }
  }

  /** A batch taken in is announced to its devices, if every context check passes, and to the queue. */
  lemma IngestAnnounces(s: State, inputs: seq<SampleInput>, at: int, touches: seq<Touch>, end: int)
    requires DevicesOk(s.db.devices) && StreamsOk(s.db.streams, s.db.devices) && AreAcceptable(inputs, s.db.streams, s.db.devices)
    requires Vet(s.db, inputs, at).Ok? && TouchesFit(touches, inputs, at, end)
    ensures var s' := AfterIngest(s, inputs, at, touches);
            && AreAnnounced(inputs, s.db.streams, s') && OnlySeen(inputs, s.db.streams, s.db.devices, s'.db.devices)
            && ((forall t | t in touches :: t.live) ==> AreSeen(inputs, s.db.streams, s'.db.devices, at))
  {
    var s1 := s.(db := s.db.AddSamples(Vet(s.db, inputs, at).value));
    TouchesAreOfInputs(inputs, touches, at, end);
    AcceptableCanBeTouched(s.db, inputs, touches);
    hide DevicesOk, StreamsOk, Vet, TouchesFit, AfterTouches, CanTouch, AreAcceptable, SameStreams, AreAnnounced, AreSeen, OnlySeen, AllSeen, OthersUnseen, AllSubmitted, StillThere;
    assert s1.db == s.db.(samples := s1.db.samples);
    TouchesSee(s1, touches, at);
    AnnouncedByTouches(s1.db, inputs, touches, AfterTouches(s1, touches, at));
    OnlySeenByTouches(s1.db, inputs, touches, AfterTouches(s1, touches, at).db.devices);
    if forall t | t in touches :: t.live {
      SeenByTouches(s1.db, inputs, touches, AfterTouches(s1, touches, at).db.devices, at);
    }
  }

  // ----- Retention over runs -----

  // The samples a call adds.
  ghost function Added(s: State, act: Act): seq<Sample> {
    if act.IngestTelemetry? then Vet(s.db, act.samples, act.at).Or([]) else []
  }

  // Every sample ever added in a run, in order of arrival.
  ghost function Arrivals(s: State, calls: seq<Call>): seq<Sample> {
    if calls == [] then []
    else
      var front := calls[..|calls| - 1];
      Arrivals(s, front) + Added(Run(s, front), calls[|calls| - 1].act)
  }

  lemma {:induction false} PicksLeaveSamples(s: State, src: Source, ds: seq<Detection>, picks: seq<Pick>)
    requires |ds| == |picks|
    ensures AfterPicks(s, src, ds, picks).db.samples == s.db.samples
  {
    hide AfterOnePick;
    if ds != [] {
      var last := |ds| - 1;
      PicksLeaveSamples(s, src, ds[..last], picks[..last]);
      PickLeavesSamples(AfterPicks(s, src, ds[..last], picks[..last]), src, ds[last], picks[last]);
    }
  }

  lemma PickLeavesSamples(s: State, src: Source, d: Detection, p: Pick)
    ensures AfterOnePick(s, src, d, p).db.samples == s.db.samples
  {
    var a := AnomalyFor(s.sequence + 1, src, d, p);
    CorrelateLeavesSamples(s.(sequence := s.sequence + 1, now := p.stamped, db := s.db.(anomalies := s.db.anomalies[a.id := a])), a, p);
    hide Correlate, NumberedId;
  }

  lemma CorrelateLeavesSamples(s: State, a: Anomaly, p: Pick)
    ensures Correlate(s, a, p).0.db.samples == s.db.samples
  {
    hide NewIncident, Incident.AddAnomaly, NumberedId, IncidentTitle;
    if p.live && !(p.found.Some? && p.found.value in s.db.incidents) {
      var s1 := s.(sequence := s.sequence + 1);
      var made := NewIncident(NumberedId("incident", s1.sequence), a.deviceId, IncidentTitle(a.signal), a.severity, a.id, p.stamped);
      if made.Ok? && s1.db.PutIncident(made.value).Ok? {
        assert s1.db.PutIncident(made.value).value.samples == s.db.samples;
        hide Db.PutIncident;
      }
    } else {
    }
  }

  lemma EvaluateLeavesSamples(s: State, act: Act)
    requires act.EvaluateTelemetry?
    ensures AfterEvaluate(s, act).db.samples == s.db.samples
  {
    hide AfterPicks, FindingsOf;
    match FindingsOf(s.db, act.streamId, act.deviceId, act.found, act.windowEnd)
    case Nothing =>
    case Findings(src, ds) =>
      if |ds| == |act.picks| {
        PicksLeaveSamples(s.(now := act.windowEnd), src, ds, act.picks);
      }
  }

  lemma IncidentCallsLeaveSamples(s: State, act: Act)
    requires !RecordsOnly(act) && !act.IngestTelemetry? && !act.EvaluateTelemetry? && !act.Handle?
    ensures Effect(s, act).db.samples == s.db.samples
  {
    hide AfterTransitionIncident, AfterAddEvidence, AfterExecute, AfterRollup, AfterCreateAction, Action.Cancel;
    match act
    case TransitionIncident(id, to, at) => TransitionIncidentFrame(s.db, id, to, at);
    case AddEvidence(id, evidence, at, attached) => AddEvidenceFrame(s.db, id, evidence, at, attached);
    case ExecuteAction(id, at, finished) => ExecuteFrame(s, id, at, finished);
    case RollupEvidence(id, at, attached) => RollupFrame(s, id, at, attached);
    case CreateAction(action, at, attached) => CreateActionFrame(s, action, at, attached);
    case CancelAction(id, at) =>
    case Receive =>
  }

  lemma OtherCallsLeaveSamples(s: State, act: Act, end: int)
    requires !act.IngestTelemetry? && Fits(s, act, end)
    ensures Effect(s, act).db.samples == s.db.samples
    decreases act
  {
    if act.Handle? {
      hide AfterEvaluate, AfterRollup, AfterExecute;
      OtherCallsLeaveSamples(s.(inHand := Without(s.inHand, act.slot)), act.handler, end);
    } else if act.EvaluateTelemetry? {
      hide AfterEvaluate;
      EvaluateLeavesSamples(s, act);
    } else if RecordsOnly(act) {
      hide Effect;
      RecordCallFrame(s, act);
    } else {
      hide Effect;
      IncidentCallsLeaveSamples(s, act);
    }
  }

  lemma CallAdds(s: State, act: Act, end: int)
    requires Fits(s, act, end)
    ensures Effect(s, act).db.samples == Suffix(s.db.samples + Added(s, act), RETAINED) || (Added(s, act) == [] && Effect(s, act).db.samples == s.db.samples)
  {
    if act.IngestTelemetry? {
      hide VetOne, AfterTouches, TouchesFit;
      if act.samples != [] && Vet(s.db, act.samples, act.at).Ok? {
        TouchesLeaveSamples(s.(db := s.db.AddSamples(Vet(s.db, act.samples, act.at).value)), act.touches, act.at);
      }
    } else {
      hide Effect, Fits;
      OtherCallsLeaveSamples(s, act, end);
    }
  }

  /** After any run the store holds exactly the last 10000 samples ever accepted, in order of arrival. */
  lemma {:induction false} StoreHoldsTheLastArrivals(s: State, calls: seq<Call>)
    requires Initial(s) && CanRun(s, calls)
    ensures Run(s, calls).db.samples == Suffix(Arrivals(s, calls), 10000)
  {
    hide Fits, Effect, Added;
    if calls != [] {
      var front, call := calls[..|calls| - 1], calls[|calls| - 1];
      StoreHoldsTheLastArrivals(s, front);
      CallAdds(Run(s, front), call.act, call.end);
      SuffixOfSuffix(Arrivals(s, front), Added(Run(s, front), call.act), RETAINED);
      assert Arrivals(s, front) + [] == Arrivals(s, front);
    }
  }

  // ----- Windows of evaluations -----

  /** The window an evaluation builds fails only on an empty list and is otherwise exact for the
      samples listed, all of the stream and its device and signal. */
  lemma EvaluationWindowIsExact(s: State, streamId: string, end: int)
    requires Reachable(s) && end >= s.now && streamId in s.db.streams
    ensures var start := end - 300_000_000_000;
            var list := Listed(s.db.samples, streamId, start, end, 500);
            && (forall x | x in list :: x.streamId == streamId && x.deviceId == s.db.streams[streamId].deviceId && x.signal == s.db.streams[streamId].signal)
            && (WindowOf(list, start, end).Ok? <==> list != [])
            && (list != [] ==> ExactWindow(WindowOf(list, start, end).value, list))
  {
    ReachableIsOk(s);
    InvHasBase(s);
    hide Inv, Reachable, Listed, ExactWindow, WindowOf, Base;
    EvaluationLists(s, streamId, end);
    StreamWindow(s, streamId, end);
  }
}
