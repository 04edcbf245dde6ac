/** Reminder policies as users write them (bot/pace.go): `off`, `every 2d 20:00`, `7d,3h`. */
module Pace {
  import opened Common
  import opened Decimals
  import opened Texts
  import opened Durations
  import opened Clocks
  import opened Reminders
  import opened Sorting

  // ----- printing

  /** A number and its unit. */
  datatype Part = Part(count: nat, name: string)

  function Spell(parts: seq<Part>): string {
    if parts == [] then "" else Digits(parts[0].count) + (parts[0].name + Spell(parts[1..]))
  }

  /** Hours, minutes and seconds, from the first that is not zero. */
  function ClockParts(d: nat): seq<Part> {
    var h, m, s := Part(d / HOUR, "h"), Part(d / MINUTE % 60, "m"), Part(d / SECOND % 60, "s");
    if d / HOUR > 0 then [h, m, s] else if d / MINUTE % 60 > 0 then [m, s] else [s]
  }

  /** Duration.String for a whole number of seconds. */
  function GoString(d: int): string
    requires d % SECOND == 0
  {
    if d < 0 then "-" + Spell(ClockParts(-d)) else Spell(ClockParts(d))
  }

  function FormatOffset(d: int): string
    requires d % SECOND == 0
  {
    if d >= DAY && d % DAY == 0 then FormatInt(d / DAY) + "d"
    else if d % HOUR == 0 then FormatInt(d / HOUR) + "h"
    else if d % MINUTE == 0 then FormatInt(d / MINUTE) + "m"
    else GoString(d)
  }

  /** All durations are whole seconds that fit 64 bits. */
  predicate WholeSeconds(p: Policy) {
    match p
    case Offsets(offsets) => forall i :: 0 <= i < |offsets| ==> offsets[i] % SECOND == 0 && offsets[i] <= MAX_INT64
    case Interval(every, _, _) => every % SECOND == 0 && every <= MAX_INT64
    case _ => true
  }

  function FormatEach(offsets: seq<int>): (r: seq<string>)
    requires forall i :: 0 <= i < |offsets| ==> offsets[i] % SECOND == 0
    ensures |r| == |offsets| && forall i :: 0 <= i < |r| ==> r[i] == FormatOffset(offsets[i])
  {
    seq(|offsets|, i requires 0 <= i < |offsets| => FormatOffset(offsets[i]))
  }

  function FormatPace(p: Policy): string
    requires WholeSeconds(p) && (p.Interval? ==> p.at.Valid())
  {
    match p
    case Silent => "off"
    case Interval(every, at, _) => "every " + FormatOffset(every) + " " + ShowTime(at)
    case Offsets(offsets) => Join(FormatEach(offsets), ",")
    case UnknownMode(_) => ""
  }

  method FormatReminderPace(p: Policy) returns (text: string)
    requires WholeSeconds(p) && (p.Interval? ==> p.at.Valid())
    ensures text == FormatPace(p)
  {
    match p {
      case Silent => text := "off";
      case Interval(every, at, _) => text := "every " + FormatOffset(every) + " " + ShowTime(at);
      case Offsets(offsets) =>
        var parts: seq<string> := [];
        for i := 0 to |offsets|
          invariant |parts| == i && forall k :: 0 <= k < i ==> parts[k] == FormatOffset(offsets[k])
        {
          parts := parts + [FormatOffset(offsets[i])];
        }
        assert parts == FormatEach(offsets);
        text := Join(parts, ",");
      case UnknownMode(_) => text := "";
    }
  }

  // ----- reading

  const NONE_WORDS: set<string> := {"off", "none", "\U{306A}\U{3057}", "no", "\U{30AA}\U{30D5}"}

  predicate IsSeparator(c: char) {
    c in {',', '\U{3001}', ' '}
  }

  function ReadInterval(rest: string): Option<Policy> {
    var fields := Fields(rest);
    if |fields| == 0 || |fields| > 2 then None
    else
      match ParseDuration(fields[0])
      case None => None
      case Some(every) =>
        if |fields| == 1 then Some(Interval(every, TimeOfDay(0, 0), DEFAULT_FINAL_OFFSET))
        else
          match ReadTime(fields[1])
          case None => None
          case Some(at) => Some(Interval(every, at, DEFAULT_FINAL_OFFSET))
  }

  /** All fields, or none if one of them cannot be read. */
  function ReadEach<T>(fields: seq<string>, read: string -> Option<T>): Option<seq<T>> {
    if fields == [] then Some([])
    else
      var last := |fields| - 1;
      match (ReadEach(fields[..last], read), read(fields[last]))
      case (Some(values), Some(v)) => Some(values + [v])
      case _ => None
  }

  function ReadOffsets(s: string): Option<Policy> {
    var fields := Split(s, IsSeparator, "");
    if fields == [] then None
    else
      match ReadEach(fields, ParseDuration)
      case None => None
      case Some(offsets) => Some(Offsets(offsets))
  }

  method ParseOffsets(s: string) returns (r: Option<Policy>)
    ensures r == ReadOffsets(s)
  {
    var fields := Split(s, IsSeparator, "");
    if |fields| == 0 {
      return None;
    }
    var offsets: seq<int> := [];
    for i := 0 to |fields|
      invariant ReadEach(fields[..i], ParseDuration) == Some(offsets)
    {
      assert fields[..i + 1][..i] == fields[..i];
      var d := ParseDuration(fields[i]);
      if d.None? {
        ReadEachFails(fields, ParseDuration, i + 1);
        return None;
      }
      offsets := offsets + [d.value];
    }
    assert fields[..|fields|] == fields;
    return Some(Offsets(offsets));
  }

  lemma {:induction false} ReadEachFails<T>(fields: seq<string>, read: string -> Option<T>, n: nat)
    requires n <= |fields| && ReadEach(fields[..n], read).None?
    ensures ReadEach(fields, read).None?
  {
    if n < |fields| {
      assert fields[..|fields| - 1][..n] == fields[..n];
      ReadEachFails(fields[..|fields| - 1], read, n);
    } else {
      assert fields[..n] == fields;
    }
  }

  function ReadUnchecked(s: string): Option<Policy> {
    match CutPrefix(s, "every")
    case Some(rest) => ReadInterval(rest)
    case None =>
      match CutPrefix(s, "\U{6BCE}")
      case Some(rest) => ReadInterval(rest)
      case None => ReadOffsets(s)
  }

  ghost function ReadPace(input: string): Option<Policy> {
    var s := Normalize(input);
    if s == "" then None
    else if Lower(s) in NONE_WORDS then Some(Silent)
    else
      match ReadUnchecked(s)
      case None => None
      case Some(policy) => if Valid(policy) then Some(policy) else None
  }

  method ParseReminderPace(input: string) returns (r: Option<Policy>)
    ensures r == ReadPace(input)
  {
    var s := Normalize(input);
    if s == "" {
      return None;
    }
    if Lower(s) in NONE_WORDS {
      return Some(Silent);
    }
    var every, mai := CutPrefix(s, "every"), CutPrefix(s, "\U{6BCE}");
    if every.Some? {
      r := ReadInterval(every.value);
    } else if mai.Some? {
      r := ReadInterval(mai.value);
    } else {
      r := ParseOffsets(s);
    }
    if r.Some? {
      var ok := Validate(r.value);
      if !ok {
        return None;
      }
    }
  }

  // ----- printed durations are read back

  /** The text of a duration: digits and unit letters, a digit first. */
  predicate Terse(s: string) {
    && |s| > 1 && IsDigit(s[0])
    && forall i :: 0 <= i < |s| ==> IsDigit(s[i]) || s[i] in {'d', 'h', 'm', 's'}
  }

  lemma TerseIsUnbroken(s: string)
    requires Terse(s)
    ensures Unbroken(s, IsSpace) && Unbroken(s, IsSeparator)
  {
  }

  predicate Named(parts: seq<Part>) {
    forall i :: 0 <= i < |parts| ==> parts[i].name in {"h", "m", "s"}
  }

  function Scale(name: string): int {
    if name == "h" then HOUR else if name == "m" then MINUTE else SECOND
  }

  function TermsOf(parts: seq<Part>): seq<Term> {
    if parts == [] then [] else [Term(parts[0].count, Scale(parts[0].name))] + TermsOf(parts[1..])
  }

  lemma {:induction false} SpellIsTerse(parts: seq<Part>)
    requires Named(parts)
    ensures parts != [] ==> Terse(Spell(parts)) && 'd' !in Spell(parts)
  {
    if parts != [] {
      DigitsRead(parts[0].count);
      SpellIsTerse(parts[1..]);
    }
  }

  lemma PartReads(part: Part, rest: string, terms: seq<Term>)
    requires part.name in {"h", "m", "s"} && NextTerm(rest) && ReadTerms(rest) == Some(terms)
    ensures ReadTerms(Digits(part.count) + (part.name + rest)) == Some([Term(part.count, Scale(part.name))] + terms)
  {
    DigitsRead(part.count);
    TermReads(Digits(part.count), part.name, rest);
  }

  /** The text of the parts is read as their terms. */
  lemma {:induction false} SpellReads(parts: seq<Part>)
    requires Named(parts)
    ensures ReadTerms(Spell(parts)) == Some(TermsOf(parts))
  {
    if parts != [] {
      SpellReads(parts[1..]);
      SpellIsTerse(parts[1..]);
      PartReads(parts[0], Spell(parts[1..]), TermsOf(parts[1..]));
    }
  }

  lemma {:induction false} TermsArePlausible(parts: seq<Part>)
    ensures Plausible(TermsOf(parts))
  {
    if parts != [] {
      TermsArePlausible(parts[1..]);
    }
  }

  lemma SpelledReads(parts: seq<Part>)
    requires Named(parts) && parts != [] && Worth(TermsOf(parts)) <= MAX_INT64
    ensures ParseDuration(Spell(parts)) == Some(Worth(TermsOf(parts))) && Terse(Spell(parts))
  {
    SpellIsTerse(parts);
    SpellReads(parts);
    TermsArePlausible(parts);
    TermsRead(Spell(parts), TermsOf(parts));
  }

  lemma OneWorth(n: nat, name: string)
    ensures Worth(TermsOf([Part(n, name)])) == n * Scale(name)
  {
    PartWorth(Part(n, name), []);
    assert [Part(n, name)] + [] == [Part(n, name)];
  }

  lemma ClockWorth(d: nat)
    requires d % SECOND == 0
    ensures Worth(TermsOf(ClockParts(d))) == d && Named(ClockParts(d)) && ClockParts(d) != []
  {
    Clockwise(d);
    var h, m, s := Part(d / HOUR, "h"), Part(d / MINUTE % 60, "m"), Part(d / SECOND % 60, "s");
    assert [h, m, s][1..] == [m, s] && [m, s][1..] == [s] && [s][1..] == [];
    PartWorth(s, []);
    PartWorth(m, [s]);
    PartWorth(h, [m, s]);
    assert [s] == [s] + [] && [m, s] == [m] + [s] && [h, m, s] == [h] + [m, s];
  }

  lemma PartWorth(part: Part, parts: seq<Part>)
    ensures Worth(TermsOf([part] + parts)) == part.count * Scale(part.name) + Worth(TermsOf(parts))
  {
    assert ([part] + parts)[1..] == parts;
    var terms := TermsOf([part] + parts);
    assert terms[1..] == TermsOf(parts);
  }

  lemma Clockwise(d: int)
    requires d >= 0 && d % SECOND == 0
    ensures d == d / HOUR * HOUR + d / MINUTE % 60 * MINUTE + d / SECOND % 60 * SECOND
  {
    var t := d / SECOND;
    assert d == t * SECOND;
    assert d / MINUTE == t / 60 && d / HOUR == t / 3600;
    assert t == t / 60 * 60 + t % 60;
    assert t / 3600 == t / 60 / 60;
  }

  lemma WholeDays(d: nat)
    requires d % DAY == 0 && d <= MAX_INT64
    ensures ParseDuration(FormatInt(d / DAY) + "d") == Some(d) && Terse(FormatInt(d / DAY) + "d")
  {
    var n := d / DAY;
    assert n * DAY == d;
    DigitsRead(n);
    DaysRead(n);
  }

  lemma WholeUnits(d: nat, name: string)
    requires name in {"h", "m"} && d % Scale(name) == 0 && d <= MAX_INT64
    ensures ParseDuration(FormatInt(d / Scale(name)) + name) == Some(d) && Terse(FormatInt(d / Scale(name)) + name)
  {
    var n := d / Scale(name);
    assert n * Scale(name) == d;
    OneWorth(n, name);
    SpelledReads([Part(n, name)]);
    assert name + "" == name;
  }

  /** Every printed offset is read back, and has no blank or comma in it. */
  lemma OffsetReads(d: int)
    requires 0 < d <= MAX_INT64 && d % SECOND == 0
    ensures ParseDuration(FormatOffset(d)) == Some(d) && Terse(FormatOffset(d))
  {
    if d >= DAY && d % DAY == 0 {
      WholeDays(d);
    } else if d % HOUR == 0 {
      WholeUnits(d, "h");
    } else if d % MINUTE == 0 {
      WholeUnits(d, "m");
    } else {
      ClockWorth(d);
      SpelledReads(ClockParts(d));
    }
  }

  // ----- the round trip

  lemma {:induction false} EachReads<T>(words: seq<string>, values: seq<T>, read: string -> Option<T>)
    requires |words| == |values| && forall i :: 0 <= i < |words| ==> read(words[i]) == Some(values[i])
    ensures ReadEach(words, read) == Some(values)
  {
    if values != [] {
      var last := |values| - 1;
      EachReads(words[..last], values[..last], read);
      assert values == values[..last] + [values[last]];
    }
  }

  lemma {:induction false} JoinIsUnbroken(words: seq<string>)
    requires forall i :: 0 <= i < |words| ==> Terse(words[i])
    ensures Unbroken(Join(words, ","), IsSpace)
    ensures words != [] ==> Join(words, ",") != "" && IsDigit(Join(words, ",")[0])
  {
    if words != [] {
      TerseIsUnbroken(words[0]);
      JoinIsUnbroken(words[1..]);
    }
  }

  lemma StartsWithDigit(s: string)
    requires s != "" && IsDigit(s[0])
    ensures Lower(s) !in NONE_WORDS && CutPrefix(s, "every").None? && CutPrefix(s, "\U{6BCE}").None?
  {
    assert Lower(s)[0] == s[0];
    if |s| >= 5 {
      assert Lower(s[..5])[0] == s[0] && Lower("every")[0] == 'e';
    }
    assert Lower(s[..1])[0] == s[0] && Lower("\U{6BCE}")[0] == '\U{6BCE}';
  }

  lemma OffsetsRoundTrip(offsets: seq<int>)
    requires Valid(Offsets(offsets)) && WholeSeconds(Offsets(offsets))
    ensures ReadPace(FormatPace(Offsets(offsets))) == Some(Offsets(offsets))
  {
    var words := FormatEach(offsets);
    var s := Join(words, ",");
    forall i | 0 <= i < |words|
      ensures Terse(words[i]) && Unbroken(words[i], IsSeparator) && ParseDuration(words[i]) == Some(offsets[i])
    {
      OffsetReads(offsets[i]);
      TerseIsUnbroken(words[i]);
    }
    JoinIsUnbroken(words);
    NormalForm([s]);
    assert Join([s], " ") == s;
    StartsWithDigit(s);
    SplitJoin(words, ',', IsSeparator);
    EachReads(words, offsets, ParseDuration);
  }

  lemma IntervalRoundTrip(every: int, at: TimeOfDay)
    requires Valid(Interval(every, at, DEFAULT_FINAL_OFFSET)) && WholeSeconds(Interval(every, at, DEFAULT_FINAL_OFFSET))
    ensures ReadPace(FormatPace(Interval(every, at, DEFAULT_FINAL_OFFSET))) == Some(Interval(every, at, DEFAULT_FINAL_OFFSET))
  {
    var w, t := FormatOffset(every), ShowTime(at);
    WordsRead(w, t, every, at);
    EveryReads(w, t);
    IntervalReads("every " + w + " " + t, w, t, every, at);
  }

  lemma WordsRead(w: string, t: string, every: int, at: TimeOfDay)
    requires Valid(Interval(every, at, DEFAULT_FINAL_OFFSET)) && WholeSeconds(Interval(every, at, DEFAULT_FINAL_OFFSET))
    requires w == FormatOffset(every) && t == ShowTime(at)
    ensures Terse(w) && t != "" && Unbroken(w, IsSpace) && Unbroken(t, IsSpace)
    ensures ParseDuration(w) == Some(every) && ReadTime(t) == Some(at)
  {
    OffsetReads(every);
    TerseIsUnbroken(w);
    TimeRoundTrip(at);
  }

  lemma IntervalReads(s: string, w: string, t: string, every: int, at: TimeOfDay)
    requires s != "" && Normalize(s) == s && Lower(s) !in NONE_WORDS
    requires CutPrefix(s, "every") == Some(w + " " + t) && Fields(w + " " + t) == [w, t]
    requires ParseDuration(w) == Some(every) && ReadTime(t) == Some(at)
    requires Valid(Interval(every, at, DEFAULT_FINAL_OFFSET))
    ensures ReadPace(s) == Some(Interval(every, at, DEFAULT_FINAL_OFFSET))
  {
  }

  /** The words of an interval, and what they are read as. */
  lemma EveryReads(w: string, t: string)
    requires Terse(w) && t != "" && Unbroken(w, IsSpace) && Unbroken(t, IsSpace)
    ensures var s := "every " + w + " " + t;
      && Normalize(s) == s && Lower(s) !in NONE_WORDS
      && CutPrefix(s, "every") == Some(w + " " + t) && Fields(w + " " + t) == [w, t]
  {
    var s, rest := "every " + w + " " + t, w + " " + t;
    JoinsTwo(w, t);
    JoinsTwo("every", rest);
    assert ["every", w, t][1..] == [w, t];
    assert s == "every" + " " + rest == "every " + rest;
    NormalForm(["every", w, t]);
    EveryPrefix(s, rest);
    SplitJoin([w, t], ' ', IsSpace);
  }

  lemma JoinsTwo(a: string, b: string)
    ensures Join([a, b], " ") == a + " " + b
  {
    assert [a, b][1..] == [b];
  }

  lemma EveryPrefix(s: string, rest: string)
    requires s == "every " + rest && rest != "" && !IsSpace(rest[0]) && !IsSpace(rest[|rest| - 1])
    ensures CutPrefix(s, "every") == Some(rest) && Lower(s) !in NONE_WORDS
  {
    assert s[..5] == "every" && s[5..] == " " + rest;
    assert (" " + rest)[1..] == rest;
    assert Lower(s)[0] == 'e';
    TrimWord(rest);
  }

  /** Printing a valid policy and reading it again gives the policy back, for durations of
      whole seconds; an interval is printed without its final offset, so that must be the
      default one. */
  lemma PaceRoundTrip(p: Policy)
    requires Valid(p) && WholeSeconds(p)
    ensures ReadPace(FormatPace(p)) ==
            Some(if p.Interval? then p.(finalOffset := 3 * HOUR) else p)
    ensures ReadPace(FormatPace(p)) == Some(p) <==> (p.Interval? ==> p.finalOffset == 3 * HOUR)
  {
    match p {
      case Silent =>
        NormalForm(["off"]);
        assert Join(["off"], " ") == "off" && Lower("off") == "off";
      case Offsets(offsets) => OffsetsRoundTrip(offsets);
      case Interval(every, at, finalOffset) => IntervalRoundTrip(every, at);
    }
  }
}
