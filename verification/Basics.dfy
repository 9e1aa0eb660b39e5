/** Wrappers, string helpers and sequence predicates used by every other module. */
module Basics {
  datatype Option<+T> = None | Some(value: T)

  // The errors callers can tell apart; every validation failure is Invalid.
  datatype Error = NotFound | Conflict | Exists | Invalid | Stopped | Full | ContextDone

  datatype Outcome = Done | Failed(error: Error)

  datatype Result<+T> = Ok(value: T) | Err(error: Error) {
    function Or(default: T): T {
      match this
      case Ok(v) => v
      case Err(_) => default
    }
  }

  // Times and durations are integer nanoseconds; 0 is Go's zero time.
  const MINUTE := 60_000_000_000
  const FIVE_MINUTES := 5 * MINUTE
  const TEN_MINUTES := 10 * MINUTE

  // The characters Unicode classes as white space.
  predicate IsSpace(c: char) {
    || '\U{9}' <= c <= '\U{D}' || c == ' ' || c == '\U{85}' || c == '\U{A0}' || c == '\U{1680}'
    || '\U{2000}' <= c <= '\U{200A}' || '\U{2028}' <= c <= '\U{2029}'
    || c == '\U{202F}' || c == '\U{205F}' || c == '\U{3000}'
  }

  function TrimSpace(s: string): string {
    if s == "" then ""
    else if IsSpace(s[0]) then TrimSpace(s[1..])
    else if IsSpace(s[|s| - 1]) then TrimSpace(s[..|s| - 1])
    else s
  }

  predicate Blank(s: string) {
    TrimSpace(s) == ""
  }

  lemma {:induction false} NotBlank(s: string, i: nat)
    requires i < |s| && !IsSpace(s[i])
    ensures !Blank(s)
    decreases |s|
  {
    if IsSpace(s[0]) {
      NotBlank(s[1..], i - 1);
    } else if IsSpace(s[|s| - 1]) {
      NotBlank(s[..|s| - 1], i);
    }
  }

  lemma {:induction false} TrimmedIsBlankIffBlank(s: string)
    ensures Blank(TrimSpace(s)) <==> Blank(s)
    decreases |s|
  {
    if s != "" && IsSpace(s[0]) {
      TrimmedIsBlankIffBlank(s[1..]);
    } else if s != "" && IsSpace(s[|s| - 1]) {
      TrimmedIsBlankIffBlank(s[..|s| - 1]);
    }
  }

  ghost predicate AllSpace(s: string) {
    forall i | 0 <= i < |s| :: IsSpace(s[i])
  }

  /** Trimming cuts white space from both ends, and all of it. */
  lemma {:induction false} TrimmedIs(s: string) returns (before: string, after: string)
    ensures s == before + TrimSpace(s) + after && AllSpace(before) && AllSpace(after)
    ensures TrimSpace(s) != "" ==> !IsSpace(TrimSpace(s)[0]) && !IsSpace(TrimSpace(s)[|TrimSpace(s)| - 1])
    decreases |s|
  {
    before, after := "", "";
    if s != "" && IsSpace(s[0]) {
      before, after := TrimmedIs(s[1..]);
      Extended(s, before, TrimSpace(s), after);
      hide TrimSpace, IsSpace;
      before := [s[0]] + before;
    } else if s != "" && IsSpace(s[|s| - 1]) {
      before, after := TrimmedIs(s[..|s| - 1]);
      Extended(s, before, TrimSpace(s), after);
      hide TrimSpace, IsSpace;
      after := after + [s[|s| - 1]];
    }
  }

  lemma Extended(s: string, before: string, kept: string, after: string)
    requires s != ""
    ensures s[1..] == before + kept + after ==> s == [s[0]] + before + kept + after
    ensures s[..|s| - 1] == before + kept + after ==> s == before + kept + (after + [s[|s| - 1]])
  {
    assert s == [s[0]] + s[1..] && s == s[..|s| - 1] + [s[|s| - 1]];
  }

  /** A text is blank when it has nothing but white space. */
  lemma BlankIs(s: string)
    ensures Blank(s) <==> AllSpace(s)
  {
    var before, after := TrimmedIs(s);
    if !Blank(s) {
      assert s[|before|] == TrimSpace(s)[0];
    }
  }

  ghost predicate NoRepeats<T>(s: seq<T>) {
    forall i, j | 0 <= i < j < |s| :: s[i] != s[j]
  }

  function AppendUnique(values: seq<string>, value: string): seq<string> {
    if value in values then values else values + [value]
  }

  // The last n elements of a sequence, or all of it when it is shorter.
  function Suffix<T>(s: seq<T>, n: nat): seq<T> {
    if |s| > n then s[|s| - n..] else s
  }

  lemma SuffixOfSuffix<T>(s: seq<T>, t: seq<T>, n: nat)
    ensures Suffix(Suffix(s, n) + t, n) == Suffix(s + t, n)
  {
  }

  lemma SameElements<T>(a: seq<T>, b: seq<T>)
    requires multiset(a) == multiset(b)
    ensures |a| == |b| && forall x :: x in a <==> x in b
  {
    assert |multiset(a)| == |a| && |multiset(b)| == |b|;
    forall x ensures x in a <==> x in b {
      assert x in multiset(a) <==> x in multiset(b);
    }
  }

  // A text is cut in one way only at the first, and at the last, occurrence of a separator.
  lemma CutAtFirst(a: string, x: string, b: string, y: string, c: char)
    requires c !in a && c !in b && a + [c] + x == b + [c] + y
    ensures a == b && x == y
  {
    var s, t := a + [c] + x, b + [c] + y;
    assert s[|a|] == c && t[|b|] == c;
    assert forall k | 0 <= k < |a| :: s[k] == a[k];
    assert forall k | 0 <= k < |b| :: t[k] == b[k];
    assert a == s[..|a|] && b == t[..|b|] && x == s[|a| + 1..] && y == t[|b| + 1..];
  }

  lemma CutAtLast(a: string, x: string, b: string, y: string, c: char)
    requires c !in x && c !in y && a + [c] + x == b + [c] + y
    ensures a == b && x == y
  {
    var s, t := a + [c] + x, b + [c] + y;
    assert s[|a|] == c && t[|b|] == c;
    assert forall k | |a| < k < |s| :: s[k] == x[k - |a| - 1];
    assert forall k | |b| < k < |t| :: t[k] == y[k - |b| - 1];
    assert a == s[..|a|] && b == t[..|b|] && x == s[|a| + 1..] && y == t[|b| + 1..];
  }

  // Lexicographic order on strings.
  predicate LexLess(a: string, b: string) {
    && b != ""
    && (a == "" || a[0] < b[0] || (a[0] == b[0] && LexLess(a[1..], b[1..])))
  }

  lemma {:induction false} LexTotal(a: string, b: string)
    ensures LexLess(a, b) || a == b || LexLess(b, a)
    ensures !(LexLess(a, b) && (a == b || LexLess(b, a)))
    decreases |a|
  {
    if a != "" && b != "" {
      LexTotal(a[1..], b[1..]);
      assert a == [a[0]] + a[1..] && b == [b[0]] + b[1..];
    }
  }

  lemma {:induction false} LexTransitive(a: string, b: string, c: string)
    requires LexLess(a, b) && LexLess(b, c)
    ensures LexLess(a, c)
    decreases |a|
  {
    if a != "" && a[0] == b[0] == c[0] {
      LexTransitive(a[1..], b[1..], c[1..]);
    }
  }
}
