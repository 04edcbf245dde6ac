/** Durations as users write them (domain/duration.go over time.ParseDuration): whole
    numbers with units, and `d` for days. */
module Durations {
  import opened Common
  import opened Decimals
  import opened Texts

  const TWO_63: int := 0x8000_0000_0000_0000
  const TWO_64: int := 0x1_0000_0000_0000_0000

  /** How many characters at the beginning satisfy the test. */
  function RunLength(s: string, test: char -> bool): (n: nat)
    ensures n <= |s|
    ensures forall i :: 0 <= i < n ==> test(s[i])
    ensures n < |s| ==> !test(s[n])
  {
    if s == "" || !test(s[0]) then 0 else 1 + RunLength(s[1..], test)
  }

  predicate InUnit(c: char) {
    !IsDigit(c) && c != '.'
  }

  function UnitOf(name: string): (r: Option<int>)
    ensures r.Some? ==> r.value > 0
  {
    if name == "ns" then Some(1)
    else if name in {"us", "\U{B5}s", "\U{3BC}s"} then Some(1_000)
    else if name == "ms" then Some(1_000_000)
    else if name == "s" then Some(SECOND)
    else if name == "m" then Some(MINUTE)
    else if name == "h" then Some(HOUR)
    else None
  }

  /** A number and the unit it counts, in nanoseconds. */
  datatype Term = Term(count: int, unit: int)

  /** The numbers and units of the text, as the loop of time.ParseDuration meets them. */
  function ReadTerms(s: string): Option<seq<Term>>
    decreases |s|
  {
    if s == "" then Some([])
    else
      var k := RunLength(s, IsDigit);
      var u := RunLength(s[k..], InUnit);
      if k == 0 || u == 0 then None
      else
        match (UnitOf(s[k..][..u]), ReadTerms(s[k..][u..]))
        case (Some(unit), Some(terms)) => Some([Term(Number(s[..k]), unit)] + terms)
        case _ => None
  }

  /** The sum of the terms over 64-bit words, with the overflow checks of the source. */
  function SumTerms(terms: seq<Term>, sum: int): Option<int> {
    if terms == [] then Some(sum)
    else
      var v, unit := terms[0].count, terms[0].unit;
      if unit <= 0 || v > TWO_63 || v > TWO_63 / unit then None
      else
        var total := (sum + v * unit) % TWO_64;
        if total > TWO_63 then None else SumTerms(terms[1..], total)
  }

  /** time.ParseDuration on text without a decimal point. */
  function GoDuration(s: string): Option<int> {
    var signed := s != "" && (s[0] == '-' || s[0] == '+');
    var rest := if signed then s[1..] else s;
    if rest == "0" then Some(0)
    else if rest == "" then None
    else
      match ReadTerms(rest)
      case None => None
      case Some(terms) =>
        match SumTerms(terms, 0)
        case None => None
        case Some(d) => if signed && s[0] == '-' then Some(-d) else if d > MAX_INT64 then None else Some(d)
  }

  /** Every number followed by `d` becomes that many nanoseconds. */
  function ExpandDays(s: string): Option<string>
    decreases |s|
  {
    if s == "" then Some("")
    else
      var k := RunLength(s, IsDigit);
      if k == 0 then Prepend([s[0]], ExpandDays(s[1..]))
      else if k < |s| && s[k] == 'd' then
        match InNanoseconds(Number(s[..k]))
        case None => None
        case Some(ns) => Prepend(ns, ExpandDays(s[k + 1..]))
      else Prepend(s[..k], ExpandDays(s[k..]))
  }

  function InNanoseconds(days: int): Option<string> {
    if days * DAY > MAX_INT64 then None else Some(FormatInt(days * DAY) + "ns")
  }

  function Prepend(head: string, tail: Option<string>): Option<string> {
    match tail
    case None => None
    case Some(s) => Some(head + s)
  }

  function ParseDuration(s: string): Option<int> {
    var trimmed := TrimSpace(s);
    if trimmed == "" then None
    else
      match ExpandDays(trimmed)
      case None => None
      case Some(converted) => GoDuration(converted)
  }

  // ----- reading single terms

  lemma {:induction false} RunOf(a: string, b: string, test: char -> bool)
    requires (forall i :: 0 <= i < |a| ==> test(a[i])) && (b != "" ==> !test(b[0]))
    ensures RunLength(a + b, test) == |a|
  {
    if a == "" {
      assert a + b == b;
    } else {
      assert (a + b)[1..] == a[1..] + b;
      RunOf(a[1..], b, test);
    }
  }

  /** The text begins with a digit, or there is none. */
  predicate NextTerm(rest: string) {
    rest != "" ==> IsDigit(rest[0])
  }

  lemma TermCuts(digits: string, name: string, rest: string)
    requires AllDigits(digits) && name != "" && (forall i :: 0 <= i < |name| ==> InUnit(name[i])) && NextTerm(rest)
    ensures var s := digits + (name + rest); var k := |digits|;
      && RunLength(s, IsDigit) == k && s[..k] == digits
      && RunLength(s[k..], InUnit) == |name| && s[k..][..|name|] == name && s[k..][|name|..] == rest
  {
    var tail := name + rest;
    RunOf(digits, tail, IsDigit);
    RunOf(name, rest, InUnit);
    assert (digits + tail)[..|digits|] == digits && (digits + tail)[|digits|..] == tail;
    assert tail[..|name|] == name && tail[|name|..] == rest;
  }

  lemma TermReads(digits: string, name: string, rest: string)
    requires digits != "" && AllDigits(digits) && UnitOf(name).Some? && (forall i :: 0 <= i < |name| ==> InUnit(name[i]))
    requires NextTerm(rest) && ReadTerms(rest).Some?
    ensures ReadTerms(digits + (name + rest)) == Some([Term(Number(digits), UnitOf(name).value)] + ReadTerms(rest).value)
  {
    assert name != "";
    TermCuts(digits, name, rest);
  }

  function Worth(terms: seq<Term>): int {
    if terms == [] then 0 else terms[0].count * terms[0].unit + Worth(terms[1..])
  }

  predicate Plausible(terms: seq<Term>) {
    forall i :: 0 <= i < |terms| ==> terms[i].count >= 0 && terms[i].unit > 0
  }

  lemma Sign(x: int, unit: int)
    requires unit > 0 && x * unit < unit
    ensures x <= 0
  {
  }

  lemma TermFits(n: nat, unit: int, sum: int)
    requires unit > 0 && sum >= 0 && sum + n * unit <= MAX_INT64
    ensures n <= TWO_63 / unit && n <= TWO_63 && (sum + n * unit) % TWO_64 == sum + n * unit
  {
    var q := TWO_63 / unit;
    assert TWO_63 == q * unit + TWO_63 % unit;
    assert (n - q) * unit == n * unit - q * unit;
    Sign(n - q, unit);
    assert n * unit == n + n * (unit - 1);
  }

  lemma {:induction false} WorthIsPositive(terms: seq<Term>)
    requires Plausible(terms)
    ensures Worth(terms) >= 0
  {
    if terms != [] {
      WorthIsPositive(terms[1..]);
    }
  }

  /** What fits 63 bits is summed exactly. */
  lemma {:induction false} SumIsWorth(terms: seq<Term>, sum: int)
    requires Plausible(terms) && sum >= 0 && sum + Worth(terms) <= MAX_INT64
    ensures SumTerms(terms, sum) == Some(sum + Worth(terms))
  {
    if terms != [] {
      WorthIsPositive(terms[1..]);
      TermFits(terms[0].count, terms[0].unit, sum);
      SumIsWorth(terms[1..], sum + terms[0].count * terms[0].unit);
    }
  }

  lemma {:induction false} ExpandIdle(s: string)
    requires 'd' !in s
    ensures ExpandDays(s) == Some(s)
    decreases |s|
  {
    if s != "" {
      var k := RunLength(s, IsDigit);
      if k == 0 {
        ExpandIdle(s[1..]);
        assert [s[0]] + s[1..] == s;
      } else {
        ExpandIdle(s[k..]);
        assert s[..k] + s[k..] == s;
      }
    }
  }

  /** Text that begins with a digit, and is more than one, is read as its terms. */
  lemma GoReads(s: string, terms: seq<Term>)
    requires |s| > 1 && IsDigit(s[0]) && ReadTerms(s) == Some(terms)
    requires Plausible(terms) && Worth(terms) <= MAX_INT64
    ensures GoDuration(s) == Some(Worth(terms))
  {
    SumIsWorth(terms, 0);
    WorthIsPositive(terms);
  }

  /** Terms without days. */
  lemma TermsRead(s: string, terms: seq<Term>)
    requires |s| > 1 && IsDigit(s[0]) && 'd' !in s && !IsSpace(s[|s| - 1]) && ReadTerms(s) == Some(terms)
    requires Plausible(terms) && Worth(terms) <= MAX_INT64
    ensures ParseDuration(s) == Some(Worth(terms))
  {
    TrimWord(s);
    ExpandIdle(s);
    GoReads(s, terms);
  }

  lemma NanosecondsRead(n: nat)
    requires n <= MAX_INT64
    ensures GoDuration(Digits(n) + "ns") == Some(n)
  {
    var s := Digits(n) + "ns";
    DigitsRead(n);
    TermReads(Digits(n), "ns", "");
    assert "ns" + "" == "ns";
    assert [Term(n, 1)] + [] == [Term(n, 1)];
    assert Worth([Term(n, 1)]) == n * 1 + Worth([]);
    GoReads(s, [Term(n, 1)]);
  }

  /** A number of days. */
  lemma DaysRead(n: nat)
    requires n * DAY <= MAX_INT64
    ensures ParseDuration(Digits(n) + "d") == Some(n * DAY)
  {
    var digits := Digits(n);
    DigitsRead(n);
    TrimWord(digits + "d");
    RunOf(digits, "d", IsDigit);
    assert (digits + "d")[..|digits|] == digits && (digits + "d")[|digits| + 1..] == "";
    var ns := Digits(n * DAY) + "ns";
    assert ns + "" == ns;
    assert ExpandDays(digits + "d") == Some(ns);
    NanosecondsRead(n * DAY);
  }

  /** The unit that is counted, in nanoseconds. */
  function Nanoseconds(name: string): int {
    if name == "d" then 86_400_000_000_000
    else if name == "h" then 3_600_000_000_000
    else if name == "m" then 60_000_000_000
    else if name == "s" then 1_000_000_000
    else if name == "ms" then 1_000_000
    else if name == "ns" then 1
    else 1_000
  }

  predicate IsUnit(name: string) {
    name in {"h", "m", "s", "ms", "us", "\U{B5}s", "\U{3BC}s", "ns"}
  }

  lemma UnitIs(name: string)
    requires IsUnit(name)
    ensures UnitOf(name) == Some(Nanoseconds(name)) && name != "" && 'd' !in name && !IsSpace(name[|name| - 1])
    ensures forall i :: 0 <= i < |name| ==> InUnit(name[i])
  {
  }

  lemma OneTermReads(digits: string, n: nat, name: string, unit: int)
    requires digits != "" && AllDigits(digits) && Number(digits) == n && UnitOf(name) == Some(unit)
    requires name != "" && 'd' !in name && !IsSpace(name[|name| - 1]) && forall i :: 0 <= i < |name| ==> InUnit(name[i])
    requires n * unit <= MAX_INT64
    ensures ParseDuration(digits + name) == Some(n * unit)
  {
    hide UnitOf, ParseDuration, InUnit;
    var terms := [Term(n, unit)];
    TermReads(digits, name, "");
    assert name + "" == name && terms + [] == terms;
    assert Worth(terms) == n * unit + Worth([]);
    TermsRead(digits + name, terms);
  }

  /** A number of any unit, microseconds under either of their names, is that many of it. */
  lemma UnitReads(n: nat, name: string)
    requires (IsUnit(name) || name == "d") && n * Nanoseconds(name) <= MAX_INT64
    ensures ParseDuration(Digits(n) + name) == Some(n * Nanoseconds(name))
  {
    if name == "d" {
      DaysRead(n);
    } else {
      hide *;
      DigitsRead(n);
      UnitIs(name);
      OneTermReads(Digits(n), n, name, Nanoseconds(name));
    }
  }
}
