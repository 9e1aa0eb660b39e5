/** Counters under canonical keys: the key of a label map does not depend on the order the map is walked in. */
module Metrics {
  import opened Basics
  import opened Decimal

  // ----- Canonical order -----

  ghost predicate Ascending(s: seq<string>) {
    forall i, j | 0 <= i < j < |s| :: LexLess(s[i], s[j])
  }

  ghost predicate HasExactly(s: seq<string>, names: set<string>) {
    forall x :: x in s <==> x in names
  }

  lemma {:induction false} LeastExists(names: set<string>) returns (least: string)
    requires names != {}
    ensures least in names && forall x | x in names && x != least :: LexLess(least, x)
    decreases names
  {
    least :| least in names;
    if names != {least} {
      var other := LeastExists(names - {least});
      LexTotal(least, other);
      if LexLess(other, least) {
        least := other;
      } else {
        forall x | x in names && x != least && x != other ensures LexLess(least, x) {
          LexTransitive(least, other, x);
        }
      }
    }
  }

  ghost function Sorted(names: set<string>): (s: seq<string>)
    ensures Ascending(s) && HasExactly(s, names)
    decreases names
  {
    if names == {} then []
    else
      var least := Least(names);
      [least] + Sorted(names - {least})
  }

  ghost function Least(names: set<string>): (least: string)
    requires names != {}
    ensures least in names && forall x | x in names && x != least :: LexLess(least, x)
  {
    assert exists least :: least in names && forall x | x in names && x != least :: LexLess(least, x) by {
      var least := LeastExists(names);
    }
    var least :| least in names && forall x | x in names && x != least :: LexLess(least, x);
    least
  }

  /** A set of names has only one ascending arrangement. */
  lemma {:induction false} AscendingIsUnique(a: seq<string>, b: seq<string>)
    requires Ascending(a) && Ascending(b) && forall x :: x in a <==> x in b
    ensures a == b
  {
    assert b == [] || b[0] in b;
    if a != [] {
      hide LexLess;
      assert a[0] in b && b[0] in a;
      var i :| 0 <= i < |b| && b[i] == a[0];
      var j :| 0 <= j < |a| && a[j] == b[0];
      if i > 0 {
        LexTotal(a[0], b[0]);
      }
      forall x ensures x in a[1..] <==> x in b[1..] {
        AscendingTail(a, x);
        AscendingTail(b, x);
      }
      AscendingIsUnique(a[1..], b[1..]);
    }
  }

  lemma AscendingTail(s: seq<string>, x: string)
    requires Ascending(s) && s != []
    ensures x in s[1..] <==> x in s && x != s[0]
  {
    LexTotal(s[0], s[0]);
    assert s == [s[0]] + s[1..];
  }

  // ----- Keys -----

  ghost function Pairs(names: seq<string>, labels: map<string, string>): string
    requires forall x | x in names :: x in labels
  {
    if names == [] then ""
    else
      var last := names[|names| - 1];
      Pairs(names[..|names| - 1], labels) + (if |names| > 1 then "," else "") + last + "=" + labels[last]
  }

  ghost function Key(name: string, labels: map<string, string>): string {
    if labels == map[] then name else name + "{" + Pairs(Sorted(labels.Keys), labels) + "}"
  }

  lemma PairsStep(names: seq<string>, index: nat, labels: map<string, string>)
    requires index < |names| && forall x | x in names :: x in labels
    ensures Pairs(names[..index + 1], labels)
         == Pairs(names[..index], labels) + (if index > 0 then "," else "") + names[index] + "=" + labels[names[index]]
  {
    assert names[..index + 1][..index] == names[..index];
  }

  // Swapping two elements of a list without repetitions.
  lemma Swapped(s: seq<string>, i: nat, j: nat)
    requires i < j < |s|
    ensures var t := s[i := s[j]][j := s[i]];
            (forall x :: x in t <==> x in s) && (NoRepeats(s) ==> NoRepeats(t))
  {
    var t := s[i := s[j]][j := s[i]];
    forall x | x in s ensures x in t {
      var k :| 0 <= k < |s| && s[k] == x;
      assert t[if k == i then j else if k == j then i else k] == x;
    }
  }

  // The exchange loops.
  method Arrange(keys: array<string>)
    requires NoRepeats(keys[..])
    modifies keys
    ensures Ascending(keys[..]) && forall x :: x in keys[..] <==> x in old(keys[..])
  {
    var index := 0;
    while index < keys.Length
      invariant 0 <= index <= keys.Length && NoRepeats(keys[..])
      invariant forall x :: x in keys[..] <==> x in old(keys[..])
      invariant forall i, j | 0 <= i < index && i < j < keys.Length :: LexLess(keys[i], keys[j])
    {
      var next := index + 1;
      while next < keys.Length
        invariant index < next <= keys.Length && NoRepeats(keys[..])
        invariant forall x :: x in keys[..] <==> x in old(keys[..])
        invariant forall i, j | 0 <= i < index && i < j < keys.Length :: LexLess(keys[i], keys[j])
        invariant forall j | index < j < next :: LexLess(keys[index], keys[j])
      {
        Exchange(keys, index, next);
        next := next + 1;
      }
      index := index + 1;
    }
  }

  // One turn of the inner loop.
  method Exchange(keys: array<string>, index: nat, next: nat)
    requires index < next < keys.Length && NoRepeats(keys[..])
    requires forall i, j | 0 <= i < index && i < j < keys.Length :: LexLess(keys[i], keys[j])
    requires forall j | index < j < next :: LexLess(keys[index], keys[j])
    modifies keys
    ensures NoRepeats(keys[..]) && forall x :: x in keys[..] <==> x in old(keys[..])
    ensures forall i, j | 0 <= i < index && i < j < keys.Length :: LexLess(keys[i], keys[j])
    ensures forall j | index < j <= next :: LexLess(keys[index], keys[j])
  {
    ghost var before := keys[..];
    assert before[index] != before[next];
    LexTotal(keys[next], keys[index]);
    if LexLess(keys[next], keys[index]) {
      Swapped(before, index, next);
      forall j | index < j < next ensures LexLess(before[next], before[j]) {
        LexTransitive(before[next], before[index], before[j]);
      }
      keys[index], keys[next] := keys[next], keys[index];
      assert keys[..] == before[index := before[next]][next := before[index]];
    }
  }

  // The label names in whatever order the map is walked.
  method Names(labels: map<string, string>) returns (keys: array<string>)
    ensures fresh(keys) && NoRepeats(keys[..]) && HasExactly(keys[..], labels.Keys)
  {
    var walked: seq<string> := [];
    var rest := labels.Keys;
    while rest != {}
      invariant rest <= labels.Keys && NoRepeats(walked) && HasExactly(walked, labels.Keys - rest)
      decreases rest
    {
      var x :| x in rest;
      assert x !in walked;
      walked, rest := walked + [x], rest - {x};
    }
    keys := new string[|walked|](i requires 0 <= i < |walked| => walked[i]);
    assert keys[..] == walked;
  }

  // The builder loop over the arranged names.
  method WritePairs(name: string, keys: array<string>, labels: map<string, string>) returns (key: string)
    requires forall x | x in keys[..] :: x in labels
    ensures key == name + "{" + Pairs(keys[..], labels) + "}"
  {
    ghost var names := keys[..];
    assert names[..0] == [];
    var text := "";
    for index := 0 to keys.Length
      invariant text == Pairs(names[..index], labels)
    {
      var x := keys[index];
      PairsStep(names, index, labels);
      text := text + (if index > 0 then "," else "") + x + "=" + labels[x];
    }
    assert names[..keys.Length] == names;
    key := name + "{" + text + "}";
  }

  /** The key of a name and a label map, however the map is walked. */
  method MakeKey(name: string, labels: map<string, string>) returns (key: string)
    ensures key == Key(name, labels)
  {
    hide Pairs, LexLess, NoRepeats;
    if |labels| == 0 {
      return name;
    }
    var keys := Names(labels);
    Arrange(keys);
    AscendingIsUnique(keys[..], Sorted(labels.Keys));
    key := WritePairs(name, keys, labels);
  }

  /** Labels that contain the separators can share a key with other labels. */
  lemma KeysMayCollide()
    ensures Key("m", map["a" := "1,b=2"]) == Key("m", map["a" := "1", "b" := "2"])
  {
    var one, two := map["a" := "1,b=2"], map["a" := "1", "b" := "2"];
    AscendingIsUnique(["a"], Sorted(one.Keys));
    AscendingIsUnique(["a", "b"], Sorted(two.Keys));
    assert ["a"][..0] == [] && ["a", "b"][..1] == ["a"];
  }

  // A caller keeps the separators out of metric names, label names and label values.
  ghost predicate Clean(name: string, labels: map<string, string>) {
    '{' !in name && forall x | x in labels :: '=' !in x && ',' !in x && ',' !in labels[x]
  }

  // The text of one label.
  function Pair(x: string, labels: map<string, string>): string
    requires x in labels
  {
    x + "=" + labels[x]
  }

  lemma PairsEnd(names: seq<string>, labels: map<string, string>)
    requires names != [] && forall x | x in names :: x in labels
    ensures var front, last := names[..|names| - 1], names[|names| - 1];
            Pairs(names, labels) == if front == [] then Pair(last, labels) else Pairs(front, labels) + "," + Pair(last, labels)
  {
    var front, last := names[..|names| - 1], names[|names| - 1];
    assert front == [] ==> Pairs(front, labels) == "";
    Regrouped(Pairs(front, labels), if |names| > 1 then "," else "", last, "=", labels[last]);
    assert Pairs(names, labels) == Pairs(front, labels) + (if |names| > 1 then "," else "") + last + "=" + labels[last];
    hide Pairs;
    assert Pair(last, labels) == "" + "" + Pair(last, labels);
  }

  lemma Regrouped(a: string, b: string, c: string, d: string, e: string)
    ensures a + b + c + d + e == a + b + (c + d + e)
  {
  }

  lemma CommaBetween(names: seq<string>, labels: map<string, string>)
    requires names != [] && forall x | x in names :: x in labels
    ensures var front, last := names[..|names| - 1], names[|names| - 1];
            ',' !in Pair(last, labels) ==> (',' in Pairs(names, labels) <==> front != [])
  {
    hide Pairs, Pair;
    PairsEnd(names, labels);
    assert ',' in ",";
  }

  lemma PairIsInjective(x: string, a: map<string, string>, y: string, b: map<string, string>)
    requires x in a && y in b && '=' !in x && '=' !in y && Pair(x, a) == Pair(y, b)
    ensures x == y && a[x] == b[y]
  {
    CutAtFirst(x, a[x], y, b[y], '=');
  }

  lemma {:induction false} PairsAreInjective(s: seq<string>, a: map<string, string>, t: seq<string>, b: map<string, string>)
    requires s != [] && t != [] && (forall x | x in s :: x in a) && (forall x | x in t :: x in b)
    requires Clean("", a) && Clean("", b) && Pairs(s, a) == Pairs(t, b)
    ensures s == t && forall x | x in s :: a[x] == b[x]
    decreases |s|
  {
    hide Pairs;
    var front, last := s[..|s| - 1], s[|s| - 1];
    var front', last' := t[..|t| - 1], t[|t| - 1];
    PairsEnd(s, a);
    PairsEnd(t, b);
    CommaBetween(s, a);
    CommaBetween(t, b);
    assert ',' !in Pair(last, a) && ',' !in Pair(last', b);
    if front != [] && front' != [] {
      CutAtLast(Pairs(front, a), Pair(last, a), Pairs(front', b), Pair(last', b), ',');
      PairsAreInjective(front, a, front', b);
    }
    PairIsInjective(last, a, last', b);
    assert s == front + [last] && t == front' + [last'];
  }

  /** As long as callers keep the separators out, two calls share a counter exactly when their
      metric names and their label maps are equal. */
  lemma CleanKeysDiffer(name: string, labels: map<string, string>, name': string, labels': map<string, string>)
    requires Clean(name, labels) && Clean(name', labels')
    ensures Key(name, labels) == Key(name', labels') <==> name == name' && labels == labels'
  {
    BracedUnlessBare(name, labels);
    BracedUnlessBare(name', labels');
    if Key(name, labels) == Key(name', labels') {
      var s, t := Sorted(labels.Keys), Sorted(labels'.Keys);
      if labels != map[] && labels' != map[] {
        var text, text' := Pairs(s, labels), Pairs(t, labels');
        CutAtFirst(name, text + "}", name', text' + "}", '{') by { Braced(name, text); Braced(name', text'); }
        assert text == (text + "}")[..|text|] && text' == (text' + "}")[..|text'|];
        Named(labels);
        Named(labels');
        PairsAreInjective(s, labels, t, labels');
        SameMap(s, labels, labels');
      }
    }
  }

  lemma BracedUnlessBare(name: string, labels: map<string, string>)
    requires '{' !in name
    ensures '{' in Key(name, labels) <==> labels != map[]
  {
    if labels != map[] {
      Braced(name, Pairs(Sorted(labels.Keys), labels));
    }
  }

  lemma Braced(name: string, text: string)
    ensures name + "{" + text + "}" == name + ['{'] + (text + "}")
  {
  }

  lemma Named(labels: map<string, string>)
    requires labels != map[]
    ensures Sorted(labels.Keys) != []
  {
    var x :| x in labels;
    assert x in Sorted(labels.Keys);
  }

  lemma SameMap(s: seq<string>, a: map<string, string>, b: map<string, string>)
    requires HasExactly(s, a.Keys) && HasExactly(s, b.Keys) && forall x | x in s :: a[x] == b[x]
    ensures a == b
  {
    assert forall x :: x in a <==> x in s;
    assert forall x :: x in b <==> x in s;
  }

  // ----- Counters -----

  // One call of Add; Inc adds 1.
  datatype Addition = Addition(name: string, labels: map<string, string>, value: uint64)

  ghost function Total(calls: seq<Addition>, key: string): nat {
    if calls == [] then 0
    else
      var last := calls[|calls| - 1];
      Total(calls[..|calls| - 1], key) + if Key(last.name, last.labels) == key then last.value else 0
  }

  class Registry {
    var counters: map<string, uint64>
    ghost var calls: seq<Addition>

    // A counter is the sum of everything ever added under its key, modulo 2^64.
    ghost predicate Valid()
      reads this
    {
      forall key :: Reading(key) == Total(calls, key) % TWO_64
    }

    function Reading(key: string): uint64
      reads this
    {
      if key in counters then counters[key] else 0
    }

    constructor ()
      ensures Valid() && calls == []
    {
      counters, calls := map[], [];
    }

    method Add(name: string, value: uint64, labels: map<string, string>)
      requires Valid()
      modifies this
      ensures Valid() && calls == old(calls) + [Addition(name, labels, value)]
      ensures counters.Keys == old(counters).Keys + {Key(name, labels)}
    {
      hide Key, Total;
      var key := MakeKey(name, labels);
      counters := counters[key := (Reading(key) + value) % TWO_64];
      calls := calls + [Addition(name, labels, value)];
      forall k ensures Reading(k) == Total(calls, k) % TWO_64 {
        assert old(Reading(k)) == Total(old(calls), k) % TWO_64;
        OneMore(old(calls), Addition(name, labels, value), k);
      }
    }

    method Inc(name: string, labels: map<string, string>)
      requires Valid()
      modifies this
      ensures Valid() && calls == old(calls) + [Addition(name, labels, 1)]
      ensures counters.Keys == old(counters).Keys + {Key(name, labels)}
    {
      Add(name, 1, labels);
    }
  }

  lemma OneMore(calls: seq<Addition>, c: Addition, key: string)
    ensures Total(calls + [c], key) % TWO_64 == if Key(c.name, c.labels) == key then (Total(calls, key) % TWO_64 + c.value) % TWO_64 else Total(calls, key) % TWO_64
  {
    hide Key;
    assert (calls + [c])[..|calls|] == calls;
  }

  lemma {:induction false} TotalSplits(front: seq<Addition>, back: seq<Addition>, key: string)
    ensures Total(front + back, key) == Total(front, key) + Total(back, key)
  {
    hide Key;
    if back == [] {
      assert front + back == front;
    } else {
      var all := front + back;
      TotalSplits(front, back[..|back| - 1], key);
      assert all[..|all| - 1] == front + back[..|back| - 1] && all[|all| - 1] == back[|back| - 1];
    }
  }

  /** The order in which concurrent calls reach the registry does not matter. */
  lemma {:induction false} TotalsIgnoreOrder(a: seq<Addition>, b: seq<Addition>, key: string)
    requires multiset(a) == multiset(b)
    ensures Total(a, key) == Total(b, key)
    decreases |a|
  {
    hide Key, Total;
    if a == [] {
      assert b == [] by { SameElements(a, b); }
    } else {
      var last := a[|a| - 1];
      SameElements(a, b);
      assert last in b;
      var i :| 0 <= i < |b| && b[i] == last;
      OneLess(a, b, i);
      TotalsIgnoreOrder(a[..|a| - 1], b[..i] + b[i + 1..], key);
      TotalSplits(a[..|a| - 1], [last], key);
      TotalSplits(b[..i], b[i + 1..], key);
      TotalSplits(b[..i] + [last], b[i + 1..], key);
      TotalSplits(b[..i], [last], key);
      assert a == a[..|a| - 1] + [last] && b == b[..i] + [last] + b[i + 1..];
    }
  }

  lemma OneLess<T>(a: seq<T>, b: seq<T>, i: nat)
    requires multiset(a) == multiset(b) && a != [] && i < |b| && b[i] == a[|a| - 1]
    ensures multiset(a[..|a| - 1]) == multiset(b[..i] + b[i + 1..])
  {
    Cut(a, |a| - 1);
    Cut(b, i);
    assert a[|a| - 1 + 1..] == [] && multiset(a) == multiset(a[..|a| - 1]) + multiset{b[i]};
    assert multiset(b[..i] + b[i + 1..]) == multiset(b[..i]) + multiset(b[i + 1..]);
    Cancel(multiset(a[..|a| - 1]), multiset(b[..i]) + multiset(b[i + 1..]), b[i]);
  }

  lemma Cancel<T>(x: multiset<T>, y: multiset<T>, v: T)
    requires x + multiset{v} == y + multiset{v}
    ensures x == y
  {
    assert x == x + multiset{v} - multiset{v} && y == y + multiset{v} - multiset{v};
  }

  lemma Cut<T>(s: seq<T>, i: nat)
    requires i < |s|
    ensures multiset(s) == multiset(s[..i]) + multiset{s[i]} + multiset(s[i + 1..])
  {
    assert s == s[..i] + [s[i]] + s[i + 1..];
  }
}
