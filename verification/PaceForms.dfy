/** What a reminder policy is read as, form by form, beyond what printing produces
    (ParseReminderPace in bot/pace.go, parseTimeOfDay in bot/datetime.go). */
module PaceForms {
  import opened Common
  import opened Decimals
  import opened Texts
  import opened Durations
  import opened Clocks
  import opened Reminders
  import opened Pace

  // ----- blanks

  lemma {:induction false} WordsOf(s: string, separates: char -> bool, begun: string)
    requires Unbroken(begun, separates)
    ensures forall word :: word in Split(s, separates, begun) ==> word != "" && Unbroken(word, separates)
    decreases |s|
  {
    if s != "" {
      if separates(s[0]) {
        WordsOf(s[1..], separates, "");
      } else {
        WordsOf(s[1..], separates, begun + [s[0]]);
      }
    }
  }

  /** Blanks before, after and beyond the first between words do not matter. */
  lemma BlanksDontMatter(input: string)
    ensures ReadPace(Normalize(input)) == ReadPace(input)
  {
    hide ReadUnchecked, Valid, Lower;
    WordsOf(input, IsSpace, "");
    NormalForm(Fields(input));
  }

  // ----- no reminders

  lemma LowerKeepsBlanks(s: string)
    requires Unbroken(Lower(s), IsSpace)
    ensures Unbroken(s, IsSpace)
  {
    forall i | 0 <= i < |s|
      ensures !IsSpace(s[i])
    {
      assert Lower(s)[i] == LowerChar(s[i]);
    }
  }

  /** Each word for "no reminders", in either language and in any case. */
  lemma NoneReads(s: string)
    requires Lower(s) in {"off", "none", "no", "\U{306A}\U{3057}", "\U{30AA}\U{30D5}"}
    ensures ReadPace(s) == Some(Silent)
  {
    assert Unbroken(Lower(s), IsSpace) && Lower(s) != "";
    LowerKeepsBlanks(s);
    WordIsNormal(s);
  }

  // ----- offsets

  lemma TerseIsSome(word: string)
    requires Terse(word)
    ensures word != ""
  {
  }

  lemma {:induction false} JoinedWords(words: seq<string>, c: char)
    requires !IsSpace(c) && forall i :: 0 <= i < |words| ==> Terse(words[i])
    ensures Unbroken(Join(words, [c]), IsSpace)
    ensures words != [] ==> Join(words, [c]) != "" && IsDigit(Join(words, [c])[0])
  {
    if words != [] {
      TerseIsUnbroken(words[0]);
      JoinedWords(words[1..], c);
    }
  }

  lemma {:induction false} JoinBegins(words: seq<string>)
    requires words != [] && forall i :: 0 <= i < |words| ==> Terse(words[i])
    ensures Join(words, " ") != "" && IsDigit(Join(words, " ")[0])
  {
  }

  lemma JoinIsNormal(words: seq<string>, c: char)
    requires words != [] && IsSeparator(c) && forall i :: 0 <= i < |words| ==> Terse(words[i])
    ensures Normalize(Join(words, [c])) == Join(words, [c]) && Join(words, [c]) != "" && IsDigit(Join(words, [c])[0])
  {
    if c == ' ' {
      forall i | 0 <= i < |words|
        ensures words[i] != "" && Unbroken(words[i], IsSpace)
      {
        TerseIsUnbroken(words[i]);
      }
      NormalForm(words);
      JoinBegins(words);
    } else {
      JoinedWords(words, c);
      WordIsNormal(Join(words, [c]));
    }
  }

  /** Durations with a comma of either language, or a blank, between them are offsets, in that
      order, if they make a valid policy. */
  lemma OffsetsRead(offsets: seq<int>, c: char)
    requires c in {',', '\U{3001}', ' '} && offsets != []
    requires forall i :: 0 <= i < |offsets| ==> 0 < offsets[i] <= MAX_INT64 && offsets[i] % SECOND == 0
    ensures ReadPace(Join(FormatEach(offsets), [c])) == if Valid(Offsets(offsets)) then Some(Offsets(offsets)) else None
  {
    hide FormatOffset, ParseDuration, Normalize, Join, Lower, CutPrefix, Terse;
    var words := FormatEach(offsets);
    forall i | 0 <= i < |words|
      ensures Terse(words[i]) && words[i] != "" && Unbroken(words[i], IsSeparator) && ParseDuration(words[i]) == Some(offsets[i])
    {
      OffsetReads(offsets[i]);
      TerseIsUnbroken(words[i]);
      TerseIsSome(words[i]);
    }
    JoinIsNormal(words, c);
    StartsWithDigit(Join(words, [c]));
    SplitJoin(words, c, IsSeparator);
    EachReads(words, offsets, ParseDuration);
  }

  // ----- intervals

  /** The time of an interval, or midnight. */
  function TimeOr(time: Option<TimeOfDay>): TimeOfDay {
    match time
    case None => TimeOfDay(0, 0)
    case Some(at) => at
  }

  function Timed(word: string, time: Option<TimeOfDay>): seq<string>
    requires time.Some? ==> time.value.Valid()
  {
    match time
    case None => [word]
    case Some(at) => [word, ShowTime(at)]
  }

  lemma FieldsRead(rest: string, every: int, time: Option<TimeOfDay>)
    requires 0 < every <= MAX_INT64 && every % SECOND == 0 && (time.Some? ==> time.value.Valid())
    requires rest == Join(Timed(FormatOffset(every), time), " ")
    ensures ReadInterval(rest) == Some(Interval(every, TimeOr(time), 3 * HOUR))
    ensures rest != "" && !IsSpace(rest[0]) && !IsSpace(rest[|rest| - 1])
    ensures Fields(rest) == Timed(FormatOffset(every), time)
    ensures forall word :: word in Timed(FormatOffset(every), time) ==> word != "" && Unbroken(word, IsSpace)
  {
    hide FormatOffset, ParseDuration, ReadTime;
    var w := FormatOffset(every);
    OffsetReads(every);
    TerseIsUnbroken(w);
    match time {
      case None =>
        SplitOnly(w, IsSpace);
      case Some(at) =>
        TimeRoundTrip(at);
        JoinsTwo(w, ShowTime(at));
        SplitJoin([w, ShowTime(at)], ' ', IsSpace);
    }
  }

  /** The keyword of an interval: "every" in any case, or its one-letter translation. */
  predicate IsKeyword(key: string) {
    Lower(key) == "every" || key == "\U{6BCE}"
  }

  lemma KeywordIsWord(key: string)
    requires IsKeyword(key)
    ensures key != "" && Unbroken(key, IsSpace)
  {
    if Lower(key) == "every" {
      LowerKeepsBlanks(key);
    }
  }

  lemma TrimsGap(gap: string, rest: string)
    requires gap in {"", " "} && rest != "" && !IsSpace(rest[0]) && !IsSpace(rest[|rest| - 1])
    ensures TrimSpace(gap + rest) == rest
  {
    assert gap == " " ==> (gap + rest)[1..] == rest;
    assert gap == "" ==> gap + rest == rest;
    TrimWord(rest);
  }

  lemma PrefixCut(key: string, gap: string, rest: string, prefix: string)
    requires Lower(key) == Lower(prefix) && gap in {"", " "}
    requires rest != "" && !IsSpace(rest[0]) && !IsSpace(rest[|rest| - 1])
    ensures CutPrefix(key + gap + rest, prefix) == Some(rest)
  {
    var s := key + gap + rest;
    assert s[..|key|] == key && s[|key|..] == gap + rest;
    TrimsGap(gap, rest);
  }

  lemma OtherPrefix(s: string, prefix: string)
    requires s != "" && prefix != "" && LowerChar(s[0]) != LowerChar(prefix[0])
    ensures CutPrefix(s, prefix).None?
  {
    if |s| >= |prefix| {
      assert Lower(s[..|prefix|])[0] == LowerChar(s[0]);
    }
  }

  lemma KeywordIsNoNone(s: string)
    requires s != "" && LowerChar(s[0]) in {'e', '\U{6BCE}'}
    ensures Lower(s) !in NONE_WORDS
  {
    assert Lower(s)[0] == LowerChar(s[0]);
  }

  lemma KeywordCut(key: string, gap: string, rest: string)
    requires IsKeyword(key) && gap in {"", " "}
    requires rest != "" && !IsSpace(rest[0]) && !IsSpace(rest[|rest| - 1])
    ensures ReadUnchecked(key + gap + rest) == ReadInterval(rest) && Lower(key + gap + rest) !in NONE_WORDS
  {
    hide CutPrefix, ReadInterval, ReadOffsets;
    var s := key + gap + rest;
    assert Lower(key)[0] == LowerChar(key[0]);
    KeywordIsNoNone(s);
    if key == "\U{6BCE}" {
      PrefixCut(key, gap, rest, "\U{6BCE}");
      OtherPrefix(s, "every");
    } else {
      assert Lower("every") == "every";
      PrefixCut(key, gap, rest, "every");
    }
  }

  lemma IntervalIsNormal(key: string, gap: string, words: seq<string>)
    requires IsKeyword(key) && gap in {"", " "} && words != []
    requires forall word :: word in words ==> word != "" && Unbroken(word, IsSpace)
    ensures var s := key + gap + Join(words, " "); Normalize(s) == s
  {
    KeywordIsWord(key);
    if gap == " " {
      assert ([key] + words)[1..] == words;
      assert Join([key] + words, " ") == key + gap + Join(words, " ");
      forall i | 0 <= i < |[key] + words|
        ensures ([key] + words)[i] != "" && Unbroken(([key] + words)[i], IsSpace)
      {
        assert i > 0 ==> ([key] + words)[i] == words[i - 1] && words[i - 1] in words;
      }
      NormalForm([key] + words);
    } else {
      var glued := [key + words[0]] + words[1..];
      assert glued[1..] == words[1..] && key + gap == key;
      assert Join(glued, " ") == key + gap + Join(words, " ");
      assert words[0] in words;
      forall i | 0 <= i < |glued|
        ensures glued[i] != "" && Unbroken(glued[i], IsSpace)
      {
        assert i > 0 ==> glued[i] == words[i] && words[i] in words;
      }
      NormalForm(glued);
    }
  }

  /** A keyword, a duration with or without a blank before it and, if given, a time: an
      interval from that time of day, else from midnight, with its last reminder three hours
      before the start. Less than an hour is refused. */
  lemma IntervalReads(key: string, gap: string, every: int, time: Option<TimeOfDay>)
    requires IsKeyword(key) && gap in {"", " "}
    requires 0 < every <= MAX_INT64 && every % SECOND == 0 && (time.Some? ==> time.value.Valid())
    ensures ReadPace(key + gap + Join(Timed(FormatOffset(every), time), " ")) ==
            if every >= 60 * MINUTE then Some(Interval(every, TimeOr(time), 3 * HOUR)) else None
  {
    hide ReadUnchecked, ReadInterval, FormatOffset, Join, Normalize, Lower;
    var words := Timed(FormatOffset(every), time);
    FieldsRead(Join(words, " "), every, time);
    KeywordIsWord(key);
    IntervalIsNormal(key, gap, words);
    KeywordCut(key, gap, Join(words, " "));
  }

  // ----- times of day

  lemma TwoDigitsAre(s: string, n: int)
    requires |s| == 2 && AllDigits(s) && Number(s) == n
    ensures 0 <= n < 100 && s == TwoDigits(n)
  {
    var a, b := DigitValue(s[0]), DigitValue(s[1]);
    assert s[..1] == [s[0]] && [s[0]][..0] == "" && Number("") == 0;
    assert Number([s[0]]) == a && n == 10 * a + b;
    assert s == [Digit(a), Digit(b)];
  }

  lemma OneDigitIs(s: string, n: int)
    requires |s| == 1 && AllDigits(s) && Number(s) == n
    ensures 0 <= n < 10 && s == TwoDigits(n)[1..]
  {
    assert s[..0] == "";
  }

  /** Exactly HH:MM, or H:MM for an hour of one digit, is read as that time. */
  lemma TimeReadsIff(s: string, at: TimeOfDay)
    requires at.Valid()
    ensures ReadTime(s) == Some(at) <==> s == ShowTime(at) || (at.hour < 10 && s == ShowTime(at)[1..])
  {
    TimeRoundTrip(at);
    if at.hour < 10 {
      ShortTimeReads(at);
    }
    if ReadTime(s) == Some(at) {
      var k := RunLength(s, IsDigit);
      assert s == s[..k] + ":" + s[k + 1..];
      TwoDigitsAre(s[k + 1..], at.minute);
      if k == 2 {
        TwoDigitsAre(s[..k], at.hour);
      } else {
        OneDigitIs(s[..k], at.hour);
      }
    }
  }

  lemma ShortTimeReads(at: TimeOfDay)
    requires at.Valid() && at.hour < 10
    ensures ReadTime(ShowTime(at)[1..]) == Some(at)
  {
    var h, m := [Digit(at.hour)], TwoDigits(at.minute);
    var s := ShowTime(at)[1..];
    TwoDigitsRead(at.minute);
    assert h[..0] == "" && Number("") == 0 && Number(h) == at.hour;
    assert s == h + (":" + m);
    RunOf(h, ":" + m, IsDigit);
    assert s[..1] == h && s[2..] == m;
  }
}
