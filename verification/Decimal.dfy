/** Decimal printing and the saturating limit parser. */
module Decimal {
  const TWO_63 := 0x8000_0000_0000_0000
  const TWO_64 := 0x1_0000_0000_0000_0000

  type uint64 = n: int | 0 <= n < TWO_64
  type int64 = n: int | -TWO_63 <= n < TWO_63

  predicate IsDigit(c: char) {
    '0' <= c <= '9'
  }

  ghost predicate IsNumeral(s: string) {
    forall i | 0 <= i < |s| :: IsDigit(s[i])
  }

  function Digit(d: int): (c: char)
    requires 0 <= d < 10
    ensures IsDigit(c) && (c - '0') as int == d
  {
    '0' + d as char
  }

  // The decimal numeral of n, most significant digit first, without leading zeros.
  function Digits(n: nat): string {
    if n < 10 then [Digit(n)] else Digits(n / 10) + [Digit(n % 10)]
  }

  // The number a numeral denotes; the empty numeral denotes zero.
  ghost function Value(s: string): nat
    requires IsNumeral(s)
  {
    if s == [] then 0 else 10 * Value(s[..|s| - 1]) + (s[|s| - 1] - '0') as int
  }

  ghost function Pow10(k: nat): nat {
    if k == 0 then 1 else 10 * Pow10(k - 1)
  }

  lemma {:induction false} DigitsReadBack(n: nat)
    ensures IsNumeral(Digits(n)) && Value(Digits(n)) == n
  {
    if n < 10 {
      assert Digits(n)[..0] == [];
    } else {
      DigitsReadBack(n / 10);
      assert Digits(n)[..|Digits(n)| - 1] == Digits(n / 10);
    }
  }

  lemma {:induction false} DigitsInjective(m: nat, n: nat)
    requires Digits(m) == Digits(n)
    ensures m == n
  {
    DigitsReadBack(m);
    DigitsReadBack(n);
  }

  lemma {:induction false} DigitsLength(n: nat, k: nat)
    requires FitsIn(n, k) && 1 <= k
    ensures 1 <= |Digits(n)| <= k
  {
    if n >= 10 {
      DigitsLength(n / 10, k - 1);
    }
  }

  ghost predicate FitsIn(n: nat, k: nat) {
    n < Pow10(k)
  }

  lemma EveryUint64Fits(n: uint64)
    ensures FitsIn(n, 20)
  {
    assert Pow10(5) == 100_000;
    assert Pow10(10) == 10_000_000_000 by { assert Pow10(7) == 10_000_000; }
    assert Pow10(15) == 1_000_000_000_000_000 by { assert Pow10(12) == 1_000_000_000_000; }
    assert Pow10(17) == 100_000_000_000_000_000;
    assert Pow10(20) == 100_000_000_000_000_000_000;
  }

  // The digits written below: nothing once the value is used up.
  ghost function Unwritten(value: nat): string {
    if value == 0 then [] else Digits(value)
  }

  lemma TakeDigit(rest: nat, index: nat)
    requires 0 < rest && FitsIn(rest, index)
    ensures index > 0 && FitsIn(rest / 10, index - 1)
  {
    assert Pow10(0) == 1;
    assert Pow10(index) == 10 * Pow10(index - 1);
  }

  lemma TakenIsWritten(value: nat, rest: nat, written: string)
    requires rest > 0 && Unwritten(value) == Unwritten(rest) + written
    ensures Unwritten(value) == Unwritten(rest / 10) + ([Digit(rest % 10)] + written)
  {
    assert Unwritten(rest) == Unwritten(rest / 10) + [Digit(rest % 10)];
  }

  lemma NothingUnwritten()
    ensures Unwritten(0) == []
  {
  }

  /** Fills a 20-byte buffer from its end; the index never leaves the buffer. */
  method FillBackwards(value: uint64) returns (text: string)
    ensures text == Unwritten(value)
    ensures |text| <= 20
  {
    var buffer := new char[20];
    var index, rest := buffer.Length, value;
    EveryUint64Fits(value);
    hide Unwritten, FitsIn, Digit;
    while rest > 0
      invariant 0 <= index <= buffer.Length == 20
      invariant 0 <= rest <= value && FitsIn(rest, index)
      invariant Unwritten(value) == Unwritten(rest) + buffer[index..]
    {
      ghost var written := buffer[index..];
      TakeDigit(rest, index);
      TakenIsWritten(value, rest, written);
      index := index - 1;
      buffer[index] := Digit(rest % 10);
      assert buffer[index..] == [Digit(rest % 10)] + written;
      rest := rest / 10;
    }
    NothingUnwritten();
    text := buffer[index..];
  }

  /** The queue's printer, over every uint64. */
  method PrintUint64(value: uint64) returns (text: string)
    ensures text == Digits(value)
    ensures 1 <= |text| <= 20
    ensures IsNumeral(text) && Value(text) == value
  {
    DigitsReadBack(value);
    if value == 0 {
      return "0";
    }
    text := FillBackwards(value);
    assert |Digits(value)| >= 1;
  }

  // What the service's printer yields. Negating the least int64 wraps to itself,
  // so its loop does not run and only the sign is printed.
  function Printed(value: int64): string {
    if value == -TWO_63 then "-"
    else if value < 0 then "-" + Digits(-value)
    else Digits(value)
  }

  /** The service's printer, over every int64. */
  method PrintInt64(value: int64) returns (text: string)
    ensures text == Printed(value)
  {
    if value == 0 {
      return "0";
    }
    var sign := "";
    var rest: int64 := value;
    if rest < 0 {
      sign := "-";
      rest := if rest == -TWO_63 then rest else -rest;
    }
    var digits := "";
    if rest > 0 {
      digits := FillBackwards(rest);
    }
    text := sign + digits;
  }

  // What reading a printed number back means: an optional sign, then a non-empty numeral.
  ghost predicate ReadsBackAs(text: string, value: int) {
    if |text| > 0 && text[0] == '-'
    then |text| > 1 && IsNumeral(text[1..]) && value + Value(text[1..]) == 0
    else |text| > 0 && IsNumeral(text) && value == Value(text)
  }

  /** Round trip of the service's printer, and the one value for which it fails. */
  lemma PrintedReadsBack(value: int64)
    ensures ReadsBackAs(Printed(value), value) <==> value != -TWO_63
  {
    if value == -TWO_63 {
    } else if value < 0 {
      DigitsReadBack(-value);
      assert Printed(value)[1..] == Digits(-value);
      EveryUint64Fits(-value);
      DigitsLength(-value, 20);
    } else {
      DigitsReadBack(value);
      EveryUint64Fits(value);
      DigitsLength(value, 20);
    }
  }

  // Identifiers built from a prefix and a counter.
  function NumberedId(prefix: string, n: nat): string {
    prefix + "-" + Digits(n)
  }

  lemma NumberedIdsDiffer(prefix: string, m: nat, n: nat)
    ensures NumberedId(prefix, m) == NumberedId(prefix, n) <==> m == n
  {
    assert NumberedId(prefix, m)[|prefix| + 1..] == Digits(m);
    assert NumberedId(prefix, n)[|prefix| + 1..] == Digits(n);
    if Digits(m) == Digits(n) {
      DigitsInjective(m, n);
    }
  }

  // The number of leading digits of s.
  ghost function DigitRun(s: string): (k: nat)
    ensures k <= |s| && IsNumeral(s[..k])
    ensures k < |s| ==> !IsDigit(s[k])
  {
    if s == [] || !IsDigit(s[0]) then 0
    else
      var k := 1 + DigitRun(s[1..]);
      assert forall i | 1 <= i < k :: s[i] == s[1..][i - 1];
      k
  }

  lemma DigitRunIs(s: string, k: nat)
    requires k <= |s| && IsNumeral(s[..k]) && (k < |s| ==> !IsDigit(s[k]))
    ensures DigitRun(s) == k
  {
    assert forall i | 0 <= i < k :: s[..k][i] == s[i];
    var r := DigitRun(s);
    assert forall i | 0 <= i < r :: s[..r][i] == s[i];
  }

  lemma {:induction false} ValueGrows(s: string, k: nat)
    requires k <= |s| && IsNumeral(s)
    ensures IsNumeral(s[..k]) && Value(s[..k]) <= Value(s)
  {
    if k < |s| {
      ValueGrows(s[..|s| - 1], k);
      assert s[..|s| - 1][..k] == s[..k];
    } else {
      assert s[..k] == s;
    }
  }

  // What a limit parameter means: the leading digits saturate at 1000; otherwise a
  // text that is not all digits, or denotes zero, gives the fallback.
  ghost function Limit(text: string, fallback: int): int {
    var run := text[..DigitRun(text)];
    if Value(run) > 1000 then 1000
    else if |run| < |text| || Value(run) == 0 then fallback
    else Value(run)
  }

  lemma LimitOfNumeral(text: string, fallback: int)
    requires IsNumeral(text)
    ensures Limit(text, fallback) == if Value(text) > 1000 then 1000 else if Value(text) == 0 then fallback else Value(text)
  {
    assert text[..|text|] == text;
    DigitRunIs(text, |text|);
  }

  lemma LimitOfOther(text: string, k: nat, fallback: int)
    requires k < |text| && IsNumeral(text[..k]) && !IsDigit(text[k])
    ensures Limit(text, fallback) == if Value(text[..k]) > 1000 then 1000 else fallback
  {
    DigitRunIs(text, k);
  }

  /** parseLimit; the accumulator stays below 10010. */
  method ParseLimit(text: string, fallback: int) returns (limit: int)
    ensures limit == Limit(text, fallback)
    ensures IsNumeral(text) ==> limit == if Value(text) > 1000 then 1000 else if Value(text) == 0 then fallback else Value(text)
  {
    if IsNumeral(text) {
      LimitOfNumeral(text, fallback);
    }
    if text == "" {
      return fallback;
    }
    var result := 0;
    for i := 0 to |text|
      invariant IsNumeral(text[..i]) && result == Value(text[..i]) <= 1000
    {
      if !IsDigit(text[i]) {
        DigitRunIs(text, i);
        return fallback;
      }
      assert text[..i + 1][..i] == text[..i];
      result := result * 10 + (text[i] - '0') as int;
      assert result <= 10009;
      assert result == Value(text[..i + 1]);
      if result > 1000 {
        var k := DigitRun(text);
        assert forall j | 0 <= j <= i :: text[..i + 1][j] == text[j];
        assert i < k;
        assert text[..k][..i + 1] == text[..i + 1];
        ValueGrows(text[..k], i + 1);
        return 1000;
      }
    }
    assert text[..|text|] == text;
    DigitRunIs(text, |text|);
    limit := if result == 0 then fallback else result;
  }

  /** A printed positive number is read back, capped at 1000. */
  lemma LimitOfPrinted(n: nat, fallback: int)
    requires n >= 1
    ensures Limit(Digits(n), fallback) == if n > 1000 then 1000 else n
  {
    DigitsReadBack(n);
    DigitRunIs(Digits(n), |Digits(n)|) by { assert Digits(n)[..|Digits(n)|] == Digits(n); }
    assert Digits(n)[..|Digits(n)|] == Digits(n);
  }
}
