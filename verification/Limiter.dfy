/** The fixed-window request limiter and the rate it really guarantees. */
module Limiter {
  import opened Basics

  // A start of 0, Go's zero time, marks an unused bucket.
  datatype Bucket = Bucket(start: int, count: int)

  datatype Config = Config(limit: int, window: int) {
    ghost predicate Valid() {
      limit >= 1 && window >= 1
    }
  }

  const UNUSED := Bucket(0, 0)

  // The bucket a call at time now falls into, before the call is counted.
  function Current(c: Config, b: Bucket, now: int): Bucket {
    if b.start == 0 || now >= b.start + c.window then Bucket(now, 0) else b
  }

  function Admits(c: Config, b: Bucket, now: int): bool {
    Current(c, b, now).count < c.limit
  }

  function Charge(c: Config, b: Bucket, now: int): Bucket {
    var current := Current(c, b, now);
    if current.count < c.limit then current.(count := current.count + 1) else current
  }

  class Limiter {
    const config: Config
    var values: map<string, Bucket>
    // Every call of Allow so far.
    ghost var calls: seq<Call>

    ghost predicate Valid()
      reads this
    {
      && config.Valid()
      && values == After(config, calls)
      && forall key | key in values :: 0 <= values[key].count <= config.limit
    }

    function BucketOf(key: string): Bucket
      reads this
    {
      if key in values then values[key] else UNUSED
    }

    constructor (limit: int, window: int)
      ensures Valid() && values == map[] && calls == []
      ensures config.limit == (if limit < 1 then 1 else limit)
      ensures config.window == (if window <= 0 then MINUTE else window)
    {
      config := Config(if limit < 1 then 1 else limit, if window <= 0 then MINUTE else window);
      values := map[];
      calls := [];
    }

    method Allow(key: string, now: int) returns (allowed: bool)
      requires Valid()
      modifies this`values, this`calls
      ensures Valid() && calls == old(calls) + [Call(key, now)]
      ensures allowed == Admitted(config, calls, |calls| - 1)
      ensures allowed == Admits(config, old(BucketOf(key)), now)
      ensures values == old(values)[key := Charge(config, old(BucketOf(key)), now)]
    {
      calls := calls + [Call(key, now)];
      assert calls[..|calls| - 1] == old(calls);
      var current := if key in values then values[key] else UNUSED;
      if current.start == 0 || now >= current.start + config.window {
        current := Bucket(now, 0);
      }
      if current.count >= config.limit {
        values := values[key := current];
        return false;
      }
      current := current.(count := current.count + 1);
      values := values[key := current];
      return true;
    }

    method Remaining(key: string, now: int) returns (remaining: int)
      requires Valid()
      ensures remaining == Left(config, BucketOf(key), now)
    {
      var current := if key in values then values[key] else UNUSED;
      if current.start == 0 || now >= current.start + config.window {
        return config.limit;
      }
      remaining := config.limit - current.count;
      if remaining < 0 {
        remaining := 0;
      }
    }
  }

  // How many further calls at one instant would be admitted: those made one after
  // another until the first refusal.
  function Left(c: Config, b: Bucket, now: int): int {
    var free := c.limit - Current(c, b, now).count;
    if free < 0 then 0 else free
  }

  /** Remaining is the number of calls that would still be admitted at that instant. */
  lemma {:induction false} LeftIsWhatIsAdmitted(c: Config, b: Bucket, now: int, n: nat)
    requires c.Valid() && now != 0 && b.count <= c.limit
    ensures Admits(c, ChargeTimes(c, b, now, n), now) <==> n < Left(c, b, now)
    decreases n
  {
    if n > 0 {
      var next := Charge(c, b, now);
      LeftIsWhatIsAdmitted(c, next, now, n - 1);
    }
  }

  ghost function ChargeTimes(c: Config, b: Bucket, now: int, n: nat): Bucket
    decreases n
  {
    if n == 0 then b else ChargeTimes(c, Charge(c, b, now), now, n - 1)
  }

  // ----- Runs of calls -----

  datatype Call = Call(key: string, time: int)

  ghost function BucketIn(values: map<string, Bucket>, key: string): Bucket {
    if key in values then values[key] else UNUSED
  }

  // The bucket table after a run of calls, from an empty limiter.
  ghost function After(c: Config, calls: seq<Call>): map<string, Bucket> {
    if calls == [] then map[]
    else
      var values := After(c, calls[..|calls| - 1]);
      var call := calls[|calls| - 1];
      values[call.key := Charge(c, BucketIn(values, call.key), call.time)]
  }

  // Was the i-th call of a run admitted?
  ghost predicate Admitted(c: Config, calls: seq<Call>, i: int)
    requires 0 <= i < |calls|
  {
    Admits(c, BucketIn(After(c, calls[..i]), calls[i].key), calls[i].time)
  }

  ghost predicate Timely(calls: seq<Call>) {
    && (forall i | 0 <= i < |calls| :: calls[i].time > 0)
    && (forall i, j | 0 <= i < j < |calls| :: calls[i].time <= calls[j].time)
  }

  // The admitted calls of one key at times in [from, to).
  ghost function AdmittedBetween(c: Config, calls: seq<Call>, key: string, from: int, to: int): nat {
    if calls == [] then 0
    else
      var last := |calls| - 1;
      AdmittedBetween(c, calls[..last], key, from, to) +
      if calls[last].key == key && from <= calls[last].time < to && Admitted(c, calls, last) then 1 else 0
  }

  // What a run leaves behind for one key and one interval start x: the bucket's own
  // calls, plus at most limit - 1 calls of the bucket before it.
  ghost predicate Tally(c: Config, b: Bucket, x: int, since: nat, within: nat) {
    && 0 <= b.count <= c.limit
    && (b.start == 0 ==> since == 0 && b.count == 0)
    && (b.start > 0 ==> b.count >= 1)
    && b.start >= 0
    && (b.start > 0 && x >= b.start + c.window ==> since == 0)
    && (x == b.start ==> since <= b.count)
    && (b.start > 0 && x > b.start ==> since <= b.count - 1)
    && (b.start - c.window < x < b.start ==> since <= c.limit - 1 + b.count)
    && within <= since
    && within <= 2 * c.limit - 1
    && (c.window == 1 ==> within <= c.limit)
  }

  lemma {:induction false} RunTally(c: Config, calls: seq<Call>, key: string, x: int, end: int)
    requires c.Valid() && Timely(calls)
    requires forall i | 0 <= i < |calls| :: calls[i].time < end
    ensures Tally(c, BucketIn(After(c, calls), key), x,
                  AdmittedBetween(c, calls, key, x, end),
                  AdmittedBetween(c, calls, key, x, x + c.window))
    ensures var b := BucketIn(After(c, calls), key);
            b.start > 0 ==> exists i | 0 <= i < |calls| :: b.start == calls[i].time
  {
    if calls != [] {
      var last := |calls| - 1;
      RunTally(c, calls[..last], key, x, end);
      var b := BucketIn(After(c, calls[..last]), key);
      if calls[last].key == key {
        var now := calls[last].time;
        if b.start > 0 {
          var i :| 0 <= i < last && b.start == calls[..last][i].time;
          assert b.start <= now;
        }
        assert BucketIn(After(c, calls), key) == Charge(c, b, now);
        assert Charge(c, b, now).start == now == calls[last].time || Charge(c, b, now).start == b.start;
      } else {
        assert BucketIn(After(c, calls), key) == b;
      }
      if b.start > 0 {
        var i :| 0 <= i < last && b.start == calls[..last][i].time;
        assert b.start == calls[i].time;
      }
    }
  }

  /** No half-open interval of one window length contains more than 2 * limit - 1 admitted calls of a key. */
  lemma SlidingBound(c: Config, calls: seq<Call>, key: string, x: int)
    requires c.Valid() && Timely(calls)
    ensures AdmittedBetween(c, calls, key, x, x + c.window) <= 2 * c.limit - 1
  {
    var end := if calls == [] then 0 else calls[|calls| - 1].time + 1;
    RunTally(c, calls, key, x, end);
  }

  /** A limiter object never admits more, whatever calls it has had at times that do not go back. */
  lemma ObjectKeepsSlidingBound(l: Limiter, key: string, x: int)
    requires l.Valid() && Timely(l.calls)
    ensures AdmittedBetween(l.config, l.calls, key, x, x + l.config.window) <= 2 * l.config.limit - 1
  {
    SlidingBound(l.config, l.calls, key, x);
  }

  ghost function OnlyKey(calls: seq<Call>, key: string): seq<Call> {
    if calls == [] then []
    else
      OnlyKey(calls[..|calls| - 1], key) +
      if calls[|calls| - 1].key == key then [calls[|calls| - 1]] else []
  }

  /** Calls under other keys have no effect on a key: its bucket, and hence every one of its
      verdicts, is that of the run restricted to the key. */
  lemma {:induction false} OtherKeysHaveNoEffect(c: Config, calls: seq<Call>, key: string)
    ensures BucketIn(After(c, calls), key) == BucketIn(After(c, OnlyKey(calls, key)), key)
    ensures forall from, to :: AdmittedBetween(c, calls, key, from, to)
                            == AdmittedBetween(c, OnlyKey(calls, key), key, from, to)
  {
    if calls != [] {
      var last := |calls| - 1;
      OtherKeysHaveNoEffect(c, calls[..last], key);
      var only := OnlyKey(calls[..last], key);
      if calls[last].key == key {
        var longer := OnlyKey(calls, key);
        assert longer[..|longer| - 1] == only;
        forall from, to
          ensures AdmittedBetween(c, calls, key, from, to) == AdmittedBetween(c, longer, key, from, to)
        {
          assert AdmittedBetween(c, calls[..last], key, from, to) == AdmittedBetween(c, only, key, from, to);
        }
      } else {
        assert OnlyKey(calls, key) == only;
      }
    }
  }

  // ----- The bound is exact -----

  // A run followed by n calls of one key at one instant.
  ghost function WithBurst(calls: seq<Call>, key: string, time: int, n: nat): seq<Call> {
    if n == 0 then calls else WithBurst(calls, key, time, n - 1) + [Call(key, time)]
  }

  // One early call, limit - 1 calls in the window's last instant, limit calls just after it.
  ghost function WorstRun(c: Config, key: string): seq<Call>
    requires c.Valid()
  {
    WithBurst(WithBurst([Call(key, 1)], key, c.window, c.limit - 1), key, c.window + 1, c.limit)
  }

  lemma {:induction false} BurstKeepsTimely(calls: seq<Call>, key: string, time: int, n: nat)
    requires Timely(calls) && time > 0
    requires calls != [] ==> calls[|calls| - 1].time <= time
    ensures var run := WithBurst(calls, key, time, n);
            Timely(run) && (run != [] ==> run[|run| - 1].time <= time)
  {
    if n > 0 {
      BurstKeepsTimely(calls, key, time, n - 1);
    }
  }

  lemma OneMoreAdmitted(c: Config, calls: seq<Call>, key: string, time: int, from: int, to: int)
    requires Admits(c, BucketIn(After(c, calls), key), time)
    ensures BucketIn(After(c, calls + [Call(key, time)]), key) == Charge(c, BucketIn(After(c, calls), key), time)
    ensures AdmittedBetween(c, calls + [Call(key, time)], key, from, to)
         == AdmittedBetween(c, calls, key, from, to) + if from <= time < to then 1 else 0
  {
    var run := calls + [Call(key, time)];
    assert run[..|calls|] == calls;
  }

  lemma ChargeFills(c: Config, found: Bucket, b: Bucket, time: int)
    requires b == Current(c, found, time) || found == b
    requires 0 < time && 0 < b.start && time < b.start + c.window && b.count + 1 <= c.limit
    ensures Admits(c, found, time) && Charge(c, found, time) == b.(count := b.count + 1)
  {
  }

  // A burst that fits into the current bucket fills it and is counted in full.
  lemma {:induction false} BurstIsAdmitted(c: Config, calls: seq<Call>, key: string, b: Bucket, time: int, n: nat, from: int, to: int)
    requires c.Valid() && 0 < time
    requires b == Current(c, BucketIn(After(c, calls), key), time)
    requires 0 < b.start && time < b.start + c.window && 0 <= b.count && b.count + n <= c.limit
    ensures n > 0 ==> BucketIn(After(c, WithBurst(calls, key, time, n)), key) == b.(count := b.count + n)
    ensures AdmittedBetween(c, WithBurst(calls, key, time, n), key, from, to)
         == AdmittedBetween(c, calls, key, from, to) + if from <= time < to then n else 0
  {
    if n > 0 {
      var run := WithBurst(calls, key, time, n - 1);
      assert WithBurst(calls, key, time, n) == run + [Call(key, time)] && (n == 1 ==> run == calls);
      hide WithBurst, After, AdmittedBetween, BucketIn, Admits, Charge, Current;
      BurstIsAdmitted(c, calls, key, b, time, n - 1, from, to);
      ChargeFills(c, BucketIn(After(c, run), key), b.(count := b.count + n - 1), time);
      OneMoreAdmitted(c, run, key, time, from, to);
    }
  }

  /** The sliding bound is reached for every limit and every window longer than one tick. */
  lemma SlidingBoundIsTight(c: Config, key: string)
    requires c.Valid() && c.window >= 2
    ensures Timely(WorstRun(c, key))
    ensures AdmittedBetween(c, WorstRun(c, key), key, 2, 2 + c.window) == 2 * c.limit - 1
  {
    FirstCall(c, key, 2, 2 + c.window);
    FillTwice(c, [Call(key, 1)], key, 2, 2 + c.window);
  }

  lemma FirstCall(c: Config, key: string, from: int, end: int)
    requires c.Valid() && from > 1
    ensures BucketIn(After(c, [Call(key, 1)]), key) == Bucket(1, 1)
    ensures AdmittedBetween(c, [Call(key, 1)], key, from, end) == 0
  {
    OneMoreAdmitted(c, [], key, 1, from, end);
    assert [] + [Call(key, 1)] == [Call(key, 1)];
  }

  lemma FillTwice(c: Config, first: seq<Call>, key: string, from: int, end: int)
    requires c.Valid() && c.window >= 2 && 2 <= from <= c.window && c.window + 1 < end
    requires first == [Call(key, 1)]
    requires BucketIn(After(c, first), key) == Bucket(1, 1)
    ensures var run := WithBurst(WithBurst(first, key, c.window, c.limit - 1), key, c.window + 1, c.limit);
            && Timely(run)
            && AdmittedBetween(c, run, key, from, end) == AdmittedBetween(c, first, key, from, end) + 2 * c.limit - 1
  {
    var second := WithBurst(first, key, c.window, c.limit - 1);
    BurstKeepsTimely(first, key, c.window, c.limit - 1);
    BurstKeepsTimely(second, key, c.window + 1, c.limit);
    BurstIsAdmitted(c, first, key, Bucket(1, 1), c.window, c.limit - 1, from, end);
    BurstIsAdmitted(c, second, key, Bucket(c.window + 1, 0), c.window + 1, c.limit, from, end);
  }

  ghost function InWindowAt(c: Config, calls: seq<Call>, key: string, x: int): nat {
    AdmittedBetween(c, calls, key, x, x + c.window)
  }

  // What a caller may expect of a limit: no interval of window length admits more calls.
  ghost predicate NeverMoreThanLimit(c: Config, key: string) {
    forall calls: seq<Call>, x | Timely(calls) :: InWindowAt(c, calls, key, x) <= c.limit
  }

  /** No interval of window length ever admits more calls than the limit exactly when that is one
      call, or the window one tick. */
  lemma LimitHoldsOnlyForOne(c: Config, key: string)
    requires c.Valid()
    ensures NeverMoreThanLimit(c, key) <==> c.limit == 1 || c.window == 1
  {
    if c.limit == 1 || c.window == 1 {
      forall calls: seq<Call>, x | Timely(calls) ensures InWindowAt(c, calls, key, x) <= c.limit {
        var end := if calls == [] then 0 else calls[|calls| - 1].time + 1;
        RunTally(c, calls, key, x, end);
      }
    } else {
      SlidingBoundIsTight(c, key);
      assert InWindowAt(c, WorstRun(c, key), key, 2) > c.limit;
    }
  }
}
