/** Window statistics and rule evaluation over a window. */
module Telemetry {
  import opened Basics
  import opened Domain

  // ----- Windows -----

  predicate Within(sample: Sample, start: int, end: int) {
    start <= sample.observedAt < end
  }

  predicate SameSource(a: Sample, b: Sample) {
    a.deviceId == b.deviceId && a.streamId == b.streamId && a.signal == b.signal
  }

  ghost function InRange(samples: seq<Sample>, start: int, end: int): seq<Sample> {
    if samples == [] then []
    else
      InRange(samples[..|samples| - 1], start, end) +
      if Within(samples[|samples| - 1], start, end) then [samples[|samples| - 1]] else []
  }

  ghost function Sum(samples: seq<Sample>): real {
    if samples == [] then 0.0 else Sum(samples[..|samples| - 1]) + samples[|samples| - 1].value
  }

  ghost function Mean(samples: seq<Sample>): real
    requires samples != []
  {
    Sum(samples) / |samples| as real
  }

  ghost function Lowest(seed: real, samples: seq<Sample>): real {
    if samples == [] then seed
    else
      var low := Lowest(seed, samples[..|samples| - 1]);
      if samples[|samples| - 1].value < low then samples[|samples| - 1].value else low
  }

  ghost function Highest(seed: real, samples: seq<Sample>): real {
    if samples == [] then seed
    else
      var high := Highest(seed, samples[..|samples| - 1]);
      if samples[|samples| - 1].value > high then samples[|samples| - 1].value else high
  }

  ghost function Bad(samples: seq<Sample>): nat {
    if samples == [] then 0
    else Bad(samples[..|samples| - 1]) + if samples[|samples| - 1].quality != "good" then 1 else 0
  }

  // The window of a list of samples. The extremes are seeded with the first listed sample,
  // in range or not.
  ghost function WindowOf(samples: seq<Sample>, start: int, end: int): Result<Window> {
    var kept := InRange(samples, start, end);
    if samples == [] || end <= start then Err(Invalid)
    else if exists i | 0 <= i < |samples| :: !SameSource(samples[i], samples[0]) then Err(Invalid)
    else if kept == [] then Err(Invalid)
    else
      Ok(Window(samples[0].deviceId, samples[0].streamId, samples[0].signal, start, end, |kept|,
                Lowest(samples[0].value, kept), Highest(samples[0].value, kept),
                Mean(kept), kept[|kept| - 1].value, Bad(kept)))
  }

  lemma OneMore(seed: real, kept: seq<Sample>, sample: Sample)
    ensures var longer := kept + [sample];
            && Sum(longer) == Sum(kept) + sample.value
            && Lowest(seed, longer) == (if sample.value < Lowest(seed, kept) then sample.value else Lowest(seed, kept))
            && Highest(seed, longer) == (if sample.value > Highest(seed, kept) then sample.value else Highest(seed, kept))
            && Bad(longer) == Bad(kept) + if sample.quality != "good" then 1 else 0
  {
    assert (kept + [sample])[..|kept|] == kept;
  }

  lemma KeepsOneMore(samples: seq<Sample>, i: nat, start: int, end: int)
    requires i < |samples|
    ensures InRange(samples[..i + 1], start, end)
         == InRange(samples[..i], start, end) + if Within(samples[i], start, end) then [samples[i]] else []
  {
    assert samples[..i + 1][..i] == samples[..i];
  }

  /** BuildWindow: one pass over the samples. */
  method BuildWindow(samples: seq<Sample>, start: int, end: int) returns (window: Result<Window>)
    ensures window == WindowOf(samples, start, end)
  {
    if |samples| == 0 || end <= start {
      return Err(Invalid);
    }
    var first := samples[0];
    var count, bad: nat := 0, 0;
    var total, low, high, last := 0.0, first.value, first.value, 0.0;
    ghost var kept: seq<Sample> := [];
    for i := 0 to |samples|
      invariant kept == InRange(samples[..i], start, end)
      invariant forall j | 0 <= j < i :: SameSource(samples[j], first)
      invariant count == |kept| && total == Sum(kept) && bad == Bad(kept)
      invariant low == Lowest(first.value, kept) && high == Highest(first.value, kept)
      invariant kept != [] ==> last == kept[|kept| - 1].value
    {
      var sample := samples[i];
      if !SameSource(sample, first) {
        return Err(Invalid);
      }
      KeepsOneMore(samples, i, start, end);
      if Within(sample, start, end) {
        count, total, last := count + 1, total + sample.value, sample.value;
        low := if sample.value < low then sample.value else low;
        high := if sample.value > high then sample.value else high;
        bad := if sample.quality != "good" then bad + 1 else bad;
        OneMore(first.value, kept, sample);
        kept := kept + [sample];
      }
    }
    assert samples[..|samples|] == samples;
    if count == 0 {
      return Err(Invalid);
    }
    return Ok(Window(first.deviceId, first.streamId, first.signal, start, end, count, low, high,
                     total / count as real, last, bad));
  }

  lemma {:induction false} LowestFacts(seed: real, s: seq<Sample>)
    ensures Lowest(seed, s) <= seed && forall i | 0 <= i < |s| :: Lowest(seed, s) <= s[i].value
    ensures Lowest(seed, s) == seed || exists i | 0 <= i < |s| :: s[i].value == Lowest(seed, s)
  {
    if s != [] {
      var front := s[..|s| - 1];
      LowestFacts(seed, front);
      assert forall i | 0 <= i < |front| :: front[i] == s[i];
    }
  }

  lemma {:induction false} HighestFacts(seed: real, s: seq<Sample>)
    ensures Highest(seed, s) >= seed && forall i | 0 <= i < |s| :: Highest(seed, s) >= s[i].value
    ensures Highest(seed, s) == seed || exists i | 0 <= i < |s| :: s[i].value == Highest(seed, s)
  {
    if s != [] {
      var front := s[..|s| - 1];
      HighestFacts(seed, front);
      assert forall i | 0 <= i < |front| :: front[i] == s[i];
    }
  }

  lemma {:induction false} SumBetween(s: seq<Sample>, low: real, high: real)
    requires forall i | 0 <= i < |s| :: low <= s[i].value <= high
    ensures low * |s| as real <= Sum(s) <= high * |s| as real
  {
    if s != [] {
      SumBetween(s[..|s| - 1], low, high);
    }
  }

  lemma {:induction false} InRangeIsFilter(s: seq<Sample>, start: int, end: int)
    ensures forall x :: x in InRange(s, start, end) <==> x in s && Within(x, start, end)
    ensures (forall i | 0 <= i < |s| :: Within(s[i], start, end)) ==> InRange(s, start, end) == s
  {
    if s != [] {
      var front := s[..|s| - 1];
      InRangeIsFilter(front, start, end);
      assert s == front + [s[|s| - 1]];
    }
  }

  // The shape of every list the pipeline builds a window from.
  ghost predicate PipelineList(s: seq<Sample>, start: int, end: int) {
    && start < end
    && forall i | 0 <= i < |s| :: Within(s[i], start, end) && SameSource(s[i], s[0])
  }

  ghost predicate Attained(s: seq<Sample>, value: real) {
    exists i | 0 <= i < |s| :: s[i].value == value
  }

  /** On a pipeline list a window exists unless the list is empty, and its statistics are exact. */
  lemma PipelineWindow(s: seq<Sample>, start: int, end: int)
    requires PipelineList(s, start, end)
    ensures WindowOf(s, start, end).Ok? <==> s != []
    ensures s != [] ==> ExactWindow(WindowOf(s, start, end).value, s)
    ensures s != [] ==> WindowOf(s, start, end).value.startedAt == start && WindowOf(s, start, end).value.endedAt == end
  {
    InRangeIsFilter(s, start, end);
    if s != [] {
      Extremes(s);
      BadAreCounted(s);
      MeanBetween(s, Lowest(s[0].value, s), Highest(s[0].value, s));
    }
  }

  ghost predicate ExactWindow(w: Window, s: seq<Sample>)
    requires s != []
  {
    && w.count == |s| && w.average == Mean(s) && w.lastValue == s[|s| - 1].value
    && w.signal == s[0].signal && w.deviceId == s[0].deviceId && w.streamId == s[0].streamId
    && Attained(s, w.min) && Attained(s, w.max)
    && (forall i | 0 <= i < |s| :: w.min <= s[i].value <= w.max)
    && w.min <= w.average <= w.max
    && w.badSamples == |BadPositions(s)|
  }

  // Where a list has samples of any quality but good.
  ghost function BadPositions(s: seq<Sample>): set<nat> {
    set k: nat | k < |s| && s[k].quality != "good"
  }

  lemma {:induction false} BadAreCounted(s: seq<Sample>)
    ensures Bad(s) == |BadPositions(s)|
  {
    if s != [] {
      var last := |s| - 1;
      BadAreCounted(s[..last]);
      assert BadPositions(s) == BadPositions(s[..last]) + if s[last].quality != "good" then {last} else {};
    }
  }

  lemma Extremes(s: seq<Sample>)
    requires s != []
    ensures Attained(s, Lowest(s[0].value, s)) && Attained(s, Highest(s[0].value, s))
    ensures forall i | 0 <= i < |s| :: Lowest(s[0].value, s) <= s[i].value <= Highest(s[0].value, s)
  {
    LowestFacts(s[0].value, s);
    HighestFacts(s[0].value, s);
  }

  lemma MeanBetween(s: seq<Sample>, low: real, high: real)
    requires s != [] && forall i | 0 <= i < |s| :: low <= s[i].value <= high
    ensures low <= Mean(s) <= high
  {
    SumBetween(s, low, high);
    var k := |s| as real;
    assert Mean(s) * k == Sum(s);
    Scale(Mean(s), high, k);
    Scale(low, Mean(s), k);
  }

  lemma Scale(x: real, y: real, k: real)
    requires k > 0.0 && x * k <= y * k
    ensures x <= y
  {
  }

  /** The maximum of a window is the value of a sample in the window exactly when some sample in it
      is not below the first listed one, and the minimum exactly when some sample is not above it. */
  lemma AttainedUnlessSeedStandsAlone(s: seq<Sample>, start: int, end: int)
    requires WindowOf(s, start, end).Ok?
    ensures var w := WindowOf(s, start, end).value;
            && (Attained(InRange(s, start, end), w.max) <==> exists x :: x in s && Within(x, start, end) && x.value >= s[0].value)
            && (Attained(InRange(s, start, end), w.min) <==> exists x :: x in s && Within(x, start, end) && x.value <= s[0].value)
  {
    var kept, w := InRange(s, start, end), WindowOf(s, start, end).value;
    InRangeIsFilter(s, start, end);
    HighestFacts(s[0].value, kept);
    LowestFacts(s[0].value, kept);
    if x :| x in s && Within(x, start, end) && x.value >= s[0].value {
      var i :| 0 <= i < |kept| && kept[i] == x;
      assert w.max == s[0].value ==> kept[i].value == w.max;
    }
    if x :| x in s && Within(x, start, end) && x.value <= s[0].value {
      var i :| 0 <= i < |kept| && kept[i] == x;
      assert w.min == s[0].value ==> kept[i].value == w.min;
    }
    if Attained(kept, w.max) {
      var i :| 0 <= i < |kept| && kept[i].value == w.max;
      assert kept[i] in kept;
    }
    if Attained(kept, w.min) {
      var i :| 0 <= i < |kept| && kept[i].value == w.min;
      assert kept[i] in kept;
    }
  }

  /** Without that shape the extremes may come from a sample outside the window. */
  lemma SeedMayBeOutOfRange()
    ensures var s := [Sample("s", "d", "x", 9.0, "good", 0, 1, 1), Sample("s", "d", "x", 1.0, "good", 5, 5, 2)];
            WindowOf(s, 1, 10).Ok? && WindowOf(s, 1, 10).value.max == 9.0 && !Attained(InRange(s, 1, 10), 9.0)
  {
    var a, b := Sample("s", "d", "x", 9.0, "good", 0, 1, 1), Sample("s", "d", "x", 1.0, "good", 5, 5, 2);
    var s := [a, b];
    assert s[..1] == [a];
    assert InRange([a], 1, 10) == [] by { assert [a][..0] == []; }
    assert InRange(s, 1, 10) == [b];
    assert Highest(9.0, [b]) == 9.0 by { assert [b][..0] == []; }
  }

  // ----- Detection -----

  datatype Detection = Detection(ruleIndex: nat, severity: int)

  function Abs(x: real): real {
    if x < 0.0 then -x else x
  }

  predicate Triggered(rule: Rule, w: Window) {
    match rule.comparator
    case Above => w.lastValue > rule.upper || w.lastValue > rule.lower
    case Below => w.lastValue < rule.lower || w.lastValue < rule.upper
    case Outside => w.lastValue < rule.lower || w.lastValue > rule.upper
    case Rate => w.count > 1 && Abs(w.lastValue - w.min) / (w.count - 1) as real > rule.upper
    case OtherComparator(_) => false
  }

  predicate Fires(rule: Rule, w: Window) {
    rule.signal == w.signal && Triggered(rule, w)
  }

  ghost function Detections(w: Window, rules: seq<Rule>): seq<Detection> {
    if rules == [] then []
    else
      var last := |rules| - 1;
      Detections(w, rules[..last]) +
      if Fires(rules[last], w) then [Detection(last, rules[last].severity)] else []
  }

  method Detect(w: Window, rules: seq<Rule>) returns (found: seq<Detection>)
    ensures found == Detections(w, rules)
  {
    found := [];
    for i := 0 to |rules|
      invariant found == Detections(w, rules[..i])
    {
      var rule := rules[i];
      assert rules[..i + 1][..i] == rules[..i];
      if rule.signal != w.signal {
        continue;
      }
      var triggered := false;
      match rule.comparator {
        case Above => triggered := w.lastValue > rule.upper || w.lastValue > rule.lower;
        case Below => triggered := w.lastValue < rule.lower || w.lastValue < rule.upper;
        case Outside => triggered := w.lastValue < rule.lower || w.lastValue > rule.upper;
        case Rate =>
          if w.count > 1 {
            var rate := Abs(w.lastValue - w.min) / (w.count - 1) as real;
            triggered := rate > rule.upper;
          }
        case OtherComparator(_) =>
      }
      if triggered {
        found := found + [Detection(i, rule.severity)];
      }
    }
    assert rules[..|rules|] == rules;
  }

  ghost predicate ReportsExactly(found: seq<Detection>, w: Window, rules: seq<Rule>) {
    && (forall k | 0 <= k < |found| ::
          && found[k].ruleIndex < |rules| && Fires(rules[found[k].ruleIndex], w)
          && found[k].severity == rules[found[k].ruleIndex].severity)
    && (forall k, m | 0 <= k < m < |found| :: found[k].ruleIndex < found[m].ruleIndex)
    && (forall i | 0 <= i < |rules| && Fires(rules[i], w) :: Reported(found, i))
  }

  /** Detect returns exactly the firing rules, each once, with its severity, in rule order. */
  lemma {:induction false} DetectionsAreExact(w: Window, rules: seq<Rule>)
    ensures ReportsExactly(Detections(w, rules), w, rules)
  {
    if rules != [] {
      var last := |rules| - 1;
      DetectionsAreExact(w, rules[..last]);
      var before, found := Detections(w, rules[..last]), Detections(w, rules);
      forall i | 0 <= i < |rules| && Fires(rules[i], w)
        ensures Reported(found, i)
      {
        if i < last {
          assert Fires(rules[..last][i], w) && Reported(before, i);
          var k :| 0 <= k < |before| && before[k].ruleIndex == i;
          assert found[k].ruleIndex == i;
        } else {
          assert found[|before|].ruleIndex == i;
        }
      }
    }
  }

  ghost predicate Reported(found: seq<Detection>, i: nat) {
    exists k | 0 <= k < |found| :: found[k].ruleIndex == i
  }

  function Smaller(x: real, y: real): real {
    if x < y then x else y
  }

  function Larger(x: real, y: real): real {
    if x < y then y else x
  }

  // What a rule asks of a list of samples: the last value above the smaller bound, below the larger
  // one, outside both, or above some listed value by more than the upper bound for every step.
  ghost predicate AskedFor(rule: Rule, s: seq<Sample>)
    requires s != []
  {
    && rule.signal == s[0].signal
    && var v := s[|s| - 1].value;
       match rule.comparator
       case Above => v > Smaller(rule.lower, rule.upper)
       case Below => v < Larger(rule.lower, rule.upper)
       case Outside => !(rule.lower <= v <= rule.upper)
       case Rate => |s| > 1 && exists k | 0 <= k < |s| :: v - s[k].value > rule.upper * (|s| - 1) as real
       case OtherComparator(_) => false
  }

  /** On a pipeline list a rule is reported exactly when it is asked for by the listed samples. */
  lemma RuleIsReportedExactly(s: seq<Sample>, start: int, end: int, rules: seq<Rule>, i: nat)
    requires PipelineList(s, start, end) && s != [] && i < |rules|
    ensures WindowOf(s, start, end).Ok?
    ensures Reported(Detections(WindowOf(s, start, end).value, rules), i) <==> AskedFor(rules[i], s)
  {
    PipelineWindow(s, start, end);
    var w := WindowOf(s, start, end).value;
    DetectionsAreExact(w, rules);
    assert Reported(Detections(w, rules), i) <==> Fires(rules[i], w);
    FiringMeans(s, w, rules[i]);
    hide *;
  }

  lemma FiringMeans(s: seq<Sample>, w: Window, rule: Rule)
    requires s != [] && ExactWindow(w, s)
    ensures Fires(rule, w) <==> AskedFor(rule, s)
  {
    hide Mean, BadPositions;
    if rule.comparator == Rate && |s| > 1 {
      RateIsRise(w.lastValue - w.min, (|s| - 1) as real, rule.upper);
      var k :| 0 <= k < |s| && s[k].value == w.min;
    }
  }

  lemma RateIsRise(rise: real, n: real, upper: real)
    requires n > 0.0
    ensures rise / n > upper <==> rise > upper * n
  {
    var rate := rise / n;
    assert rate * n == rise;
    if rise <= upper * n {
      Scale(rate, upper, n);
    }
    if rate <= upper {
      assert rate * n <= upper * n;
    }
  }

  /** Every firing rule is witnessed by the samples of a pipeline window. */
  lemma DetectionIsWitnessed(s: seq<Sample>, start: int, end: int, rule: Rule)
    requires PipelineList(s, start, end) && s != [] && WindowOf(s, start, end).Ok?
    requires Fires(rule, WindowOf(s, start, end).value)
    ensures Witnessed(rule, WindowOf(s, start, end).value)
  {
    PipelineWindow(s, start, end);
    FiringMeans(s, WindowOf(s, start, end).value, rule);
    ExtremesWitness(s, WindowOf(s, start, end).value, rule);
    hide *;
  }

  // The extremes of a window show why a rule fires.
  ghost predicate Witnessed(rule: Rule, w: Window) {
    match rule.comparator
    case Above => w.max > Smaller(rule.lower, rule.upper)
    case Below => w.min < Larger(rule.lower, rule.upper)
    case Outside => w.min < rule.lower || w.max > rule.upper
    case Rate => w.max - w.min > rule.upper * (w.count - 1) as real
    case OtherComparator(_) => false
  }

  lemma ExtremesWitness(s: seq<Sample>, w: Window, rule: Rule)
    requires s != [] && ExactWindow(w, s) && AskedFor(rule, s)
    ensures Witnessed(rule, w)
  {
    hide Mean, BadPositions;
    assert w.min <= s[|s| - 1].value <= w.max;
    if rule.comparator == Rate {
      var k :| 0 <= k < |s| && s[|s| - 1].value - s[k].value > rule.upper * (|s| - 1) as real;
      assert w.min <= s[k].value;
    }
  }
}
