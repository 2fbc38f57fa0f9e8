/**
 * Text-level building blocks of a parameterised SQL statement: the decimal
 * rendering of a placeholder index (JavaScript's number-to-string conversion
 * for non-negative integers), a reader that recovers the `$n` placeholders of
 * a statement in order, and `Array.prototype.join`.
 */
module SqlText {

  predicate IsDigit(c: char) {
    '0' <= c <= '9'
  }

  predicate AllDigits(s: string) {
    forall i :: 0 <= i < |s| ==> IsDigit(s[i])
  }

  function DigitChar(d: nat): (c: char)
    requires d < 10
    ensures IsDigit(c) && c as int - '0' as int == d
  {
    ('0' as int + d) as char
  }

  /** The decimal text of `n`: at least one digit, and no leading zero. */
  function Decimal(n: nat): (s: string)
    ensures |s| >= 1 && AllDigits(s)
    ensures |s| > 1 ==> s[0] != '0'
    decreases n
  {
    if n < 10 then [DigitChar(n)] else Decimal(n / 10) + [DigitChar(n % 10)]
  }

  /** The value of a string of decimal digits (the empty string reads as 0). */
  function ParseDecimal(s: string): nat
    requires AllDigits(s)
    decreases |s|
  {
    if s == [] then 0 else ParseDecimal(s[..|s| - 1]) * 10 + (s[|s| - 1] as int - '0' as int)
  }

  /** Reading the decimal text of a number gives the number back. */
  lemma {:induction false} ParseDecimalInvertsDecimal(n: nat)
    ensures ParseDecimal(Decimal(n)) == n
  {
    if n >= 10 {
      var s := Decimal(n);
      assert s[..|s| - 1] == Decimal(n / 10);
      ParseDecimalInvertsDecimal(n / 10);
    }
  }

  /** Different numbers have different decimal texts, so distinct placeholders never read alike. */
  lemma DecimalInjective(m: nat, n: nat)
    ensures Decimal(m) == Decimal(n) <==> m == n
  {
    ParseDecimalInvertsDecimal(m);
    ParseDecimalInvertsDecimal(n);
  }

  /** The placeholder `$i` that a statement uses for its i-th parameter. */
  function Placeholder(i: nat): (p: string)
    ensures |p| >= 2 && p[0] == '$' && AllDigits(p[1..])
  {
    "$" + Decimal(i)
  }

  /** The length of the longest prefix of `s` made only of digits. */
  function DigitRun(s: string): (n: nat)
    ensures n <= |s|
    ensures forall i :: 0 <= i < n ==> IsDigit(s[i])
    ensures n < |s| ==> !IsDigit(s[n])
  {
    if s == [] || !IsDigit(s[0]) then 0 else 1 + DigitRun(s[1..])
  }

  /**
   * The placeholders of a statement, read left to right: every `$` followed
   * by one or more digits contributes the number those digits spell.
   */
  function PlaceholderNumbers(s: string): seq<nat>
    decreases |s|
  {
    if s == [] then []
    else if s[0] == '$' && DigitRun(s[1..]) > 0 then
      var d := DigitRun(s[1..]);
      [ParseDecimal(s[1..1 + d])] + PlaceholderNumbers(s[1 + d..])
    else PlaceholderNumbers(s[1..])
  }

  /** A text that can follow another without extending a digit run at their seam. */
  predicate StartsWithNonDigit(s: string) {
    s == [] || !IsDigit(s[0])
  }

  lemma {:induction false} DigitRunAppend(a: string, b: string)
    requires StartsWithNonDigit(b)
    ensures DigitRun(a + b) == DigitRun(a)
    decreases |a|
  {
    if a == [] {
      assert a + b == b;
    } else if IsDigit(a[0]) {
      assert (a + b)[1..] == a[1..] + b;
      DigitRunAppend(a[1..], b);
    }
  }

  /** Reading placeholders distributes over concatenation when no digit run crosses the seam. */
  lemma {:induction false} PlaceholderNumbersAppend(a: string, b: string)
    requires StartsWithNonDigit(b)
    ensures PlaceholderNumbers(a + b) == PlaceholderNumbers(a) + PlaceholderNumbers(b)
    decreases |a|
  {
    if a == [] {
      assert a + b == b;
    } else {
      var d, emitted := FirstStep(a, b);
      PlaceholderNumbersAppend(a[d..], b);
      assert emitted + (PlaceholderNumbers(a[d..]) + PlaceholderNumbers(b))
          == (emitted + PlaceholderNumbers(a[d..])) + PlaceholderNumbers(b);
    }
  }

  /**
   * One step of the reader on `a + b` consumes the same `d` characters as on
   * `a` alone and yields the same number, if any.
   */
  lemma FirstStep(a: string, b: string) returns (d: nat, emitted: seq<nat>)
    requires a != [] && StartsWithNonDigit(b)
    ensures 0 < d <= |a|
    ensures PlaceholderNumbers(a) == emitted + PlaceholderNumbers(a[d..])
    ensures PlaceholderNumbers(a + b) == emitted + PlaceholderNumbers(a[d..] + b)
  {
    assert (a + b)[1..] == a[1..] + b;
    DigitRunAppend(a[1..], b);
    if a[0] == '$' && DigitRun(a[1..]) > 0 {
      d := 1 + DigitRun(a[1..]);
      emitted := [ParseDecimal(a[1..d])];
      PlaceholderStep(a, b, d);
    } else {
      d, emitted := 1, [];
    }
  }

  /** The step that reads a placeholder `$digits` at the front of `a`. */
  lemma PlaceholderStep(a: string, b: string, d: nat)
    requires 1 < d <= |a| && a[0] == '$' && d == 1 + DigitRun(a[1..])
    requires DigitRun((a + b)[1..]) == DigitRun(a[1..])
    ensures PlaceholderNumbers(a + b) == [ParseDecimal(a[1..d])] + PlaceholderNumbers(a[d..] + b)
  {
    var ab := a + b;
    assert ab[1..d] == a[1..d];
    assert ab[d..] == a[d..] + b;
  }

  /** A text without `$` holds no placeholder. */
  lemma {:induction false} PlaceholderNumbersNoDollar(s: string)
    requires '$' !in s
    ensures PlaceholderNumbers(s) == []
    decreases |s|
  {
    if s != [] {
      assert s[0] != '$';
      assert forall c :: c in s[1..] ==> c in s;
      PlaceholderNumbersNoDollar(s[1..]);
    }
  }

  /** The text `$i` reads back as exactly the one placeholder `i`. */
  lemma PlaceholderReadsBack(i: nat)
    ensures PlaceholderNumbers(Placeholder(i)) == [i]
  {
    var s := Placeholder(i);
    var digits := Decimal(i);
    assert s[1..] == digits;
    assert DigitRun(digits) == |digits|;
    assert s[1..1 + |digits|] == digits;
    assert s[1 + |digits|..] == [];
    ParseDecimalInvertsDecimal(i);
  }

  /** A fixed text without `$` followed by the placeholder `$i` holds that placeholder only. */
  lemma LiteralThenPlaceholder(literal: string, i: nat)
    requires '$' !in literal
    ensures PlaceholderNumbers(literal + Placeholder(i)) == [i]
  {
    PlaceholderNumbersAppend(literal, Placeholder(i));
    PlaceholderNumbersNoDollar(literal);
    PlaceholderReadsBack(i);
  }

  /** A head without placeholders, then two parts: the placeholders are those of the parts, in order. */
  lemma HeadThenPartsPlaceholders(head: string, first: string, second: string)
    requires PlaceholderNumbers(head) == []
    requires StartsWithNonDigit(first) && StartsWithNonDigit(second)
    ensures PlaceholderNumbers(head + first + second) == PlaceholderNumbers(first) + PlaceholderNumbers(second)
  {
    PlaceholderNumbersAppend(head + first, second);
    PlaceholderNumbersAppend(head, first);
  }

  predicate StartsWith(s: string, prefix: string) {
    |prefix| <= |s| && s[..|prefix|] == prefix
  }

  /** What follows a head is the middle part, then the tail. */
  lemma TailAfterHead(head: string, middle: string, tail: string)
    ensures (head + middle + tail)[|head|..] == middle + tail
  {
  }

  /** `Array.prototype.join`: the parts in order, with `sep` between neighbours. */
  function Join(parts: seq<string>, sep: string): (joined: string)
    ensures |parts| > 0 ==> StartsWith(joined, parts[0])
    decreases |parts|
  {
    if |parts| == 0 then ""
    else if |parts| == 1 then parts[0]
    else Join(parts[..|parts| - 1], sep) + sep + parts[|parts| - 1]
  }
}
