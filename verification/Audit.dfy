/** The audit log: bounded retention, and an ordered, filtered view of what is retained. */
module Audit {
  import opened Basics
  import opened Decimal

  datatype Entry = Entry(
    id: string, actor: string, action: string, resource: string, resourceId: string, message: string,
    changes: Option<map<string, string>>, occurredAt: int)

  datatype Filter = Filter(actor: string, action: string, resource: string, limit: int)

  function Signed(n: int): string {
    if n < 0 then "-" + Digits(-n) else Digits(n)
  }

  function EntryId(now: int, number: uint64): string {
    "audit-" + Signed(now) + "-" + Digits(number)
  }

  // No two entries share an identifier: then no two tie in the order.
  ghost predicate DistinctIds(entries: seq<Entry>) {
    forall i, j | 0 <= i < j < |entries| :: entries[i].id != entries[j].id
  }

  // The k-th entry ever recorded carries number k, which wraps around at 2^64.
  ghost predicate Numbered(history: seq<Entry>) {
    forall k | 0 <= k < |history| :: history[k].id == EntryId(history[k].occurredAt, (k + 1) % TWO_64)
  }

  lemma NextNumber(n: nat)
    ensures (n % TWO_64 + 1) % TWO_64 == (n + 1) % TWO_64
  {
  }

  lemma RecordNumbers(history: seq<Entry>, e: Entry, now: int)
    requires Numbered(history) && e.occurredAt == now && e.id == EntryId(now, (|history| + 1) % TWO_64)
    ensures Numbered(history + [e])
  {
    hide EntryId;
  }

  lemma IdsTellNumbers(t: int, m: uint64, u: int, n: uint64)
    requires EntryId(t, m) == EntryId(u, n)
    ensures m == n
  {
    DigitsReadBack(m);
    DigitsReadBack(n);
    assert EntryId(t, m) == "audit-" + Signed(t) + ['-'] + Digits(m) && EntryId(u, n) == "audit-" + Signed(u) + ['-'] + Digits(n);
    CutAtLast("audit-" + Signed(t), Digits(m), "audit-" + Signed(u), Digits(n), '-');
    DigitsInjective(m, n);
  }

  /** The first 2^64 entries of a log have distinct identifiers, whatever the clock says. */
  lemma NumberedAreDistinct(history: seq<Entry>)
    requires Numbered(history) && |history| <= TWO_64
    ensures DistinctIds(history)
  {
    hide EntryId;
    forall i, j | 0 <= i < j < |history| ensures history[i].id != history[j].id {
      if history[i].id == history[j].id {
        IdsTellNumbers(history[i].occurredAt, (i + 1) % TWO_64, history[j].occurredAt, (j + 1) % TWO_64);
      }
    }
  }

  predicate Matches(f: Filter, e: Entry) {
    && (f.actor == "" || f.actor == e.actor)
    && (f.action == "" || f.action == e.action)
    && (f.resource == "" || f.resource == e.resource)
  }

  ghost function Matching(entries: seq<Entry>, f: Filter): seq<Entry> {
    if entries == [] then []
    else
      Matching(entries[..|entries| - 1], f) + if Matches(f, entries[|entries| - 1]) then [entries[|entries| - 1]] else []
  }

  lemma MatchingStep(entries: seq<Entry>, i: nat, f: Filter)
    requires i < |entries|
    ensures Matching(entries[..i + 1], f) == Matching(entries[..i], f) + if Matches(f, entries[i]) then [entries[i]] else []
  {
    assert entries[..i + 1][..i] == entries[..i];
  }

  // The order of the view: latest first, then by identifier, descending.
  predicate Precedes(a: Entry, b: Entry) {
    if a.occurredAt == b.occurredAt then LexLess(b.id, a.id) else a.occurredAt > b.occurredAt
  }

  lemma PrecedesIsWeakOrder(a: Entry, b: Entry, c: Entry)
    ensures Precedes(a, b) ==> !Precedes(b, a)
    ensures !Precedes(b, a) && !Precedes(c, b) ==> !Precedes(c, a)
  {
    LexTotal(a.id, b.id);
    LexTotal(b.id, c.id);
    LexTotal(a.id, c.id);
    if LexLess(b.id, a.id) && LexLess(c.id, b.id) {
      LexTransitive(c.id, b.id, a.id);
    }
  }

  ghost predicate InOrder(view: seq<Entry>) {
    forall i, j | 0 <= i < j < |view| :: !Precedes(view[j], view[i])
  }

  // Inserts an entry after all that do not follow it, as a stable sort would.
  method Insert(view: seq<Entry>, e: Entry) returns (longer: seq<Entry>)
    requires InOrder(view)
    ensures InOrder(longer) && multiset(longer) == multiset(view + [e])
  {
    hide LexLess;
    var at := |view|;
    while at > 0 && Precedes(e, view[at - 1])
      invariant 0 <= at <= |view|
      invariant forall j | at <= j < |view| :: Precedes(e, view[j])
    {
      at := at - 1;
    }
    InsertKeepsOrder(view, e, at);
    longer := view[..at] + [e] + view[at..];
    assert view == view[..at] + view[at..];
  }

  lemma InsertKeepsOrder(view: seq<Entry>, e: Entry, at: nat)
    requires InOrder(view) && at <= |view|
    requires forall j | at <= j < |view| :: Precedes(e, view[j])
    requires at > 0 ==> !Precedes(e, view[at - 1])
    ensures InOrder(view[..at] + [e] + view[at..])
  {
    hide Precedes;
    forall i | 0 <= i < at ensures !Precedes(e, view[i]) {
      PrecedesIsWeakOrder(view[i], view[at - 1], e);
    }
    forall j | at <= j < |view| ensures !Precedes(view[j], e) {
      PrecedesIsWeakOrder(e, view[j], e);
    }
  }

  // A view of the retained entries: the matching ones in order, cut at the limit.
  ghost predicate IsView(view: seq<Entry>, entries: seq<Entry>, f: Filter) {
    exists whole :: InOrder(whole) && multiset(whole) == multiset(Matching(entries, f))
                    && view == if f.limit > 0 && |whole| > f.limit then whole[..f.limit] else whole
  }

  class Log {
    const limit: nat
    var sequence: uint64
    var entries: seq<Entry>
    ghost var history: seq<Entry>

    // Exactly the last entries ever recorded are retained, as many as the limit allows, and
    // they are numbered in the order of recording.
    ghost predicate Valid()
      reads this
    {
      limit >= 1 && entries == Suffix(history, limit) && sequence == |history| % TWO_64 && Numbered(history)
    }

    constructor (size: int)
      ensures Valid() && history == [] && limit == (if size < 1 then 1000 else size)
    {
      limit := if size < 1 then 1000 else size;
      sequence, entries, history := 0, [], [];
    }

    method Record(actor: string, action: string, resource: string, resourceId: string, message: string,
                  changes: Option<map<string, string>>, now: int) returns (entry: Entry)
      requires Valid()
      modifies this
      ensures Valid() && history == old(history) + [entry] && sequence == (old(sequence) + 1) % TWO_64
      ensures entry == Entry(EntryId(now, sequence), actor, action, resource, resourceId, message, changes, now)
    {
      hide EntryId, Numbered;
      sequence := (sequence + 1) % TWO_64;
      entry := Entry(EntryId(now, sequence), actor, action, resource, resourceId, message, changes, now);
      NextNumber(|history|);
      SuffixOfSuffix(history, [entry], limit);
      entries := entries + [entry];
      if |entries| > limit {
        entries := entries[|entries| - limit..];
      }
      RecordNumbers(history, entry, now);
      history := history + [entry];
    }

    // The matching entries, in order.
    method Collect(f: Filter) returns (whole: seq<Entry>)
      ensures InOrder(whole) && multiset(whole) == multiset(Matching(entries, f))
    {
      whole := [];
      assert Matching(entries[..0], f) == [];
      hide Matching, Matches;
      for i := 0 to |entries|
        invariant InOrder(whole) && multiset(whole) == multiset(Matching(entries[..i], f))
      {
        MatchingStep(entries, i, f);
        if Matches(f, entries[i]) {
          whole := Insert(whole, entries[i]);
        }
      }
      assert entries[..|entries|] == entries;
    }

    method List(f: Filter) returns (view: seq<Entry>)
      requires Valid()
      ensures IsView(view, Suffix(history, limit), f)
      ensures |history| <= TWO_64 ==> forall other :: IsView(other, Suffix(history, limit), f) ==> other == view
    {
      hide Numbered, Matching, InOrder, Matches;
      var whole := Collect(f);
      view := if f.limit > 0 && |whole| > f.limit then whole[..f.limit] else whole;
      assert InOrder(whole) && IsView(view, entries, f);
      if |history| <= TWO_64 {
        NumberedAreDistinct(history);
        SuffixIsDistinct(history, limit);
        OneView(view, Suffix(history, limit), f);
      }
    }
  }

  lemma SuffixIsDistinct(history: seq<Entry>, n: nat)
    requires DistinctIds(history)
    ensures DistinctIds(Suffix(history, n))
  {
  }

  lemma {:induction false} MatchingIsDistinct(entries: seq<Entry>, f: Filter)
    requires DistinctIds(entries)
    ensures DistinctIds(Matching(entries, f)) && forall e | e in Matching(entries, f) :: e in entries
  {
    if entries != [] {
      var front, last := entries[..|entries| - 1], entries[|entries| - 1];
      MatchingIsDistinct(front, f);
      forall e | e in Matching(front, f) ensures e.id != last.id {
        var k :| 0 <= k < |front| && front[k] == e;
        assert entries[k] == e;
      }
    }
  }

  // An entry a filter lets through, where "" lets everything through.
  ghost predicate Passes(e: Entry, f: Filter) {
    f.actor in {"", e.actor} && f.action in {"", e.action} && f.resource in {"", e.resource}
  }

  // Shown no later than another: it happened later, or at the same time with an identifier not less.
  ghost predicate NoLater(a: Entry, b: Entry) {
    a.occurredAt >= b.occurredAt && (a.occurredAt == b.occurredAt ==> a.id == b.id || LexLess(b.id, a.id))
  }

  lemma {:induction false} MatchingPass(entries: seq<Entry>, f: Filter)
    ensures multiset(Matching(entries, f)) <= multiset(entries)
    ensures forall e :: e in Matching(entries, f) <==> e in entries && Passes(e, f)
  {
    if entries != [] {
      var front, last := entries[..|entries| - 1], entries[|entries| - 1];
      MatchingPass(front, f);
      assert entries == front + [last] && (Matches(f, last) <==> Passes(last, f));
      hide Matches, Passes;
    }
  }

  lemma NotPreceding(a: Entry, b: Entry)
    ensures !Precedes(b, a) <==> NoLater(a, b)
  {
    LexTotal(a.id, b.id);
  }

  /** A view shows retained entries the filter lets through, each as often as it is retained, latest
      first; one that is left out would come after all that are shown, and the limit is reached. */
  lemma ViewMeans(view: seq<Entry>, entries: seq<Entry>, f: Filter)
    requires IsView(view, entries, f)
    ensures multiset(view) <= multiset(entries) && (f.limit > 0 ==> |view| <= f.limit)
    ensures forall e | e in view :: Passes(e, f)
    ensures forall i, j | 0 <= i < j < |view| :: NoLater(view[i], view[j])
    ensures forall e | e in entries && Passes(e, f) && e !in view :: |view| == f.limit && forall v | v in view :: NoLater(v, e)
  {
    MatchingPass(entries, f);
    var whole :| InOrder(whole) && multiset(whole) == multiset(Matching(entries, f))
                 && view == if f.limit > 0 && |whole| > f.limit then whole[..f.limit] else whole;
    SameElements(whole, Matching(entries, f));
    CutKeepsFirst(view, whole, f.limit);
    hide Passes, NoLater, Matching, InOrder, IsView;
  }

  lemma CutKeepsFirst(view: seq<Entry>, whole: seq<Entry>, limit: int)
    requires InOrder(whole) && view == if limit > 0 && |whole| > limit then whole[..limit] else whole
    ensures multiset(view) <= multiset(whole) && (limit > 0 ==> |view| <= limit) && forall e | e in view :: e in whole
    ensures forall i, j | 0 <= i < j < |view| :: NoLater(view[i], view[j])
    ensures forall e | e in whole && e !in view :: |view| == limit && forall v | v in view :: NoLater(v, e)
  {
    assert whole == view + whole[|view|..];
    forall i, j | 0 <= i < j < |whole| ensures NoLater(whole[i], whole[j]) {
      NotPreceding(whole[i], whole[j]);
    }
    hide NoLater, InOrder;
    forall e | e in whole && e !in view ensures |view| == limit && forall v | v in view :: NoLater(v, e) {
      var j :| 0 <= j < |whole| && whole[j] == e;
      assert j >= |view|;
    }
  }

  /** Entries with distinct identifiers have a single view for each filter. */
  lemma OneView(view: seq<Entry>, entries: seq<Entry>, f: Filter)
    requires DistinctIds(entries) && IsView(view, entries, f)
    ensures forall other :: IsView(other, entries, f) ==> other == view
  {
    hide Precedes, LexLess, Matching, InOrder, DistinctIds;
    MatchingIsDistinct(entries, f);
    var whole :| InOrder(whole) && multiset(whole) == multiset(Matching(entries, f))
                 && view == if f.limit > 0 && |whole| > f.limit then whole[..f.limit] else whole;
    forall other | IsView(other, entries, f) ensures other == view {
      var whole' :| InOrder(whole') && multiset(whole') == multiset(Matching(entries, f))
                    && other == if f.limit > 0 && |whole'| > f.limit then whole'[..f.limit] else whole';
      ViewIsUnique(Matching(entries, f), whole, whole');
    }
  }

  /** Entries with distinct identifiers can be put in order in one way only. */
  lemma {:induction false} ViewIsUnique(entries: seq<Entry>, a: seq<Entry>, b: seq<Entry>)
    requires DistinctIds(entries) && InOrder(a) && InOrder(b) && multiset(a) == multiset(entries) == multiset(b)
    ensures a == b
  {
    Rearranged(entries, a);
    OrderIsUnique(a, b);
  }

  lemma {:induction false} OrderIsUnique(a: seq<Entry>, b: seq<Entry>)
    requires InOrder(a) && InOrder(b) && multiset(a) == multiset(b) && DistinctIds(a)
    ensures a == b
  {
    hide Precedes, LexLess;
    SameElements(a, b);
    if a != [] {
      FirstsAgree(a, b);
      TailsMatch(a, b);
      OrderIsUnique(a[1..], b[1..]);
      assert a == [a[0]] + a[1..] && b == [b[0]] + b[1..];
    }
  }

  lemma TailsMatch(a: seq<Entry>, b: seq<Entry>)
    requires a != [] && b != [] && a[0] == b[0] && multiset(a) == multiset(b)
    ensures multiset(a[1..]) == multiset(b[1..])
  {
    assert a == [a[0]] + a[1..] && b == [b[0]] + b[1..];
    assert multiset(a[1..]) == multiset(a) - multiset{a[0]} && multiset(b[1..]) == multiset(b) - multiset{a[0]};
  }

  // Distinct identifiers stay distinct in any arrangement.
  lemma Rearranged(entries: seq<Entry>, a: seq<Entry>)
    requires DistinctIds(entries) && multiset(a) == multiset(entries)
    ensures DistinctIds(a)
  {
    SameElements(a, entries);
    forall i, j | 0 <= i < j < |a| ensures a[i].id != a[j].id {
      assert a[i] in entries && a[j] in entries;
      OnceOnly(entries, a[i]);
      Twice(a, i, j);
    }
  }

  lemma Twice(a: seq<Entry>, i: nat, j: nat)
    requires i < j < |a|
    ensures a[i] == a[j] ==> multiset(a)[a[i]] >= 2
  {
    var e := a[i];
    assert a == a[..i] + [e] + a[i + 1..j] + [a[j]] + a[j + 1..];
  }

  lemma OnceOnly(entries: seq<Entry>, e: Entry)
    requires DistinctIds(entries) && e in entries
    ensures multiset(entries)[e] == 1 && forall x | x in entries && x.id == e.id :: x == e
  {
    var k :| 0 <= k < |entries| && entries[k] == e;
    assert entries == entries[..k] + [e] + entries[k + 1..];
    assert e !in entries[..k] && e !in entries[k + 1..];
  }

  lemma FirstsAgree(a: seq<Entry>, b: seq<Entry>)
    requires InOrder(a) && InOrder(b) && a != [] && DistinctIds(a) && |a| == |b| && forall x :: x in a <==> x in b
    ensures a[0] == b[0]
  {
    hide LexLess;
    assert b[0] in a && a[0] in b;
    var i :| 0 <= i < |a| && a[i] == b[0];
    var j :| 0 <= j < |b| && b[j] == a[0];
    if i > 0 {
      assert !Precedes(a[i], a[0]) && !Precedes(b[j], b[0]);
      LexTotal(a[0].id, a[i].id);
    }
  }
}
