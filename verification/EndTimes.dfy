/** What an end is read as, form by form (ParseEndTime in bot/datetime.go). */
module EndTimes {
  import opened Common
  import opened Decimals
  import opened Texts
  import opened Durations
  import opened Clocks
  import opened Reminders
  import opened Calendar
  import Pace

  // ----- one word, or two with a blank between

  lemma WordsAreNormal(a: string, b: string)
    requires a != "" && b != "" && Unbroken(a, IsSpace) && Unbroken(b, IsSpace)
    ensures Normalize(a + " " + b) == a + " " + b
  {
    NormalForm([a, b]);
    Pace.JoinsTwo(a, b);
  }

  lemma NoBlank(word: string)
    requires Unbroken(word, IsSpace)
    ensures ' ' !in word && Cut(word, ' ').None?
  {
  }

  // ----- durations and times of day

  /** A plus and a word of digits and units is read as a duration. */
  lemma PlusEnds(word: string, startsAt: int, zone: int)
    requires Pace.Terse(word)
    ensures ReadEndTime("+" + word, startsAt, zone) == After(ParseDuration(word), startsAt)
  {
    Pace.TerseIsUnbroken(word);
    PlusReads(word, ParseDuration, Clock(startsAt, zone), startsAt);
  }

  lemma PlusReads(word: string, parse: string -> Option<int>, read: string -> Option<int>, startsAt: int)
    requires word != "" && Unbroken(word, IsSpace)
    ensures ReadEnd(Normalize("+" + word), parse, read, startsAt) == After(parse(word), startsAt)
  {
    WordIsNormal("+" + word);
    assert ("+" + word)[1..] == word;
  }

  lemma AfterIs(d: int, startsAt: int)
    requires d > 0
    ensures After(Some(d), startsAt) == Some(startsAt + d)
  {
  }

  /** A printed duration is that long after the start. */
  lemma DurationEnds(d: int, startsAt: int, zone: int)
    requires 0 < d <= MAX_INT64 && d % SECOND == 0
    ensures ReadEndTime("+" + Pace.FormatOffset(d), startsAt, zone) == Some(startsAt + d)
  {
    hide *;
    Pace.OffsetReads(d);
    PlusEnds(Pace.FormatOffset(d), startsAt, zone);
    AfterIs(d, startsAt);
  }

  /** A printed time of day is the next moment at which the clock shows it. */
  lemma TimeEnds(at: TimeOfDay, startsAt: int, zone: int)
    requires at.Valid()
    ensures ReadEndTime(ShowTime(at), startsAt, zone) == Some(EndTime(at, startsAt, zone))
  {
    TimeRoundTrip(at);
    WordIsNormal(ShowTime(at));
  }

  // ----- dates

  lemma {:induction false} PieceRuns(word: string, rest: string, begun: string)
    requires AllDigits(word)
    ensures Pieces(word + rest, begun) == Pieces(rest, begun + word)
  {
    if word == "" {
      assert word + rest == rest && begun + word == begun;
    } else {
      assert (word + rest)[1..] == word[1..] + rest;
      PieceRuns(word[1..], rest, begun + [word[0]]);
      assert begun + [word[0]] + word[1..] == begun + word;
    }
  }

  lemma PieceEnds(word: string, c: char, rest: string)
    requires AllDigits(word) && IsDateSeparator(c)
    ensures Pieces(word + ([c] + rest), "") == [word] + Pieces(rest, "")
  {
    PieceRuns(word, [c] + rest, "");
    assert "" + word == word && ([c] + rest)[1..] == rest;
  }

  lemma LastPiece(word: string)
    requires AllDigits(word)
    ensures Pieces(word, "") == [word]
  {
    PieceRuns(word, "", "");
    assert word + "" == word && "" + word == word;
  }

  function ShortDate(month: string, day: string, a: char): string {
    month + ([a] + day)
  }

  function FullDate(year: string, month: string, day: string, a: char, b: char): string {
    year + ([a] + ShortDate(month, day, b))
  }

  lemma ShortDateReads(month: string, day: string, a: char)
    requires ShortNumber(month) && ShortNumber(day) && IsDateSeparator(a)
    ensures Pieces(ShortDate(month, day, a), "") == [month, day]
    ensures MatchDate(ShortDate(month, day, a)) == Some((None, Number(month), Number(day)))
  {
    PieceEnds(month, a, day);
    LastPiece(day);
    assert [month] + [day] == [month, day];
  }

  lemma FullDateReads(year: string, month: string, day: string, a: char, b: char)
    requires |year| == 4 && AllDigits(year) && ShortNumber(month) && ShortNumber(day)
    requires IsDateSeparator(a) && IsDateSeparator(b)
    ensures MatchDate(FullDate(year, month, day, a, b)) == Some((Some(Number(year)), Number(month), Number(day)))
  {
    ShortDateReads(month, day, b);
    PieceEnds(year, a, ShortDate(month, day, b));
    assert [year] + [month, day] == [year, month, day];
  }

  /** A date begins with a digit, holds no blank and is no time of day. */
  predicate DateLike(s: string) {
    s != "" && IsDigit(s[0]) && forall i :: 0 <= i < |s| ==> IsDigit(s[i]) || IsDateSeparator(s[i])
  }

  lemma DateIsNoTime(s: string, rest: string)
    requires DateLike(s) && (exists i :: 0 <= i < |s| && IsDateSeparator(s[i]))
    ensures ReadTime(s + rest).None?
  {
    var i :| 0 <= i < |s| && IsDateSeparator(s[i]);
    var text, k := s + rest, RunLength(s + rest, IsDigit);
    assert text[i] == s[i];
    RunWithin(text, i);
    assert text[k] == s[k];
  }

  lemma {:induction false} RunWithin(s: string, i: nat)
    requires i < |s| && !IsDigit(s[i])
    ensures RunLength(s, IsDigit) <= i
  {
    if i > 0 && IsDigit(s[0]) {
      RunWithin(s[1..], i - 1);
    }
  }

  /** The time that follows the date, or midnight. */
  function TimeOr(time: Option<TimeOfDay>): TimeOfDay {
    match time
    case None => TimeOfDay(0, 0)
    case Some(at) => at
  }

  function Dated(date: string, time: Option<TimeOfDay>): string
    requires time.Some? ==> time.value.Valid()
  {
    match time
    case None => date
    case Some(at) => date + " " + ShowTime(at)
  }

  /** A date, alone or with a time, is read by the calendar. */
  lemma DateReads(date: string, year: Option<int>, month: int, day: int, time: Option<TimeOfDay>, startsAt: int, zone: int)
    requires DateLike(date) && (exists i :: 0 <= i < |date| && IsDateSeparator(date[i]))
    requires MatchDate(date) == Some((year, month, day)) && (time.Some? ==> time.value.Valid())
    ensures ReadEndTime(Dated(date, time), startsAt, zone) ==
            match year
            case None => Upcoming(month, day, TimeOr(time), startsAt, zone)
            case Some(y) => DateAt(y, month, day, TimeOr(time), zone)
  {
    NoBlank(date);
    match time {
      case None => DateAloneReads(date, startsAt, zone);
      case Some(at) =>
        TimeRoundTrip(at);
        DateAndTimeRead(date, ShowTime(at), at, startsAt, zone);
    }
  }

  lemma DateAloneReads(date: string, startsAt: int, zone: int)
    requires DateLike(date) && (exists i :: 0 <= i < |date| && IsDateSeparator(date[i]))
    requires Cut(date, ' ').None? && Unbroken(date, IsSpace) && MatchDate(date).Some?
    ensures ReadEndTime(date, startsAt, zone) ==
            match MatchDate(date).value
            case (None, month, day) => Upcoming(month, day, TimeOfDay(0, 0), startsAt, zone)
            case (Some(y), month, day) => DateAt(y, month, day, TimeOfDay(0, 0), zone)
  {
    WordIsNormal(date);
    DateIsNoTime(date, "");
    assert date + "" == date;
    assert ReadEndTime(date, startsAt, zone) == ReadClock(date, startsAt, zone) == ReadAbsolute(date, startsAt, zone, TimeOfDay(0, 0));
  }

  lemma DateAndTimeRead(date: string, t: string, at: TimeOfDay, startsAt: int, zone: int)
    requires DateLike(date) && (exists i :: 0 <= i < |date| && IsDateSeparator(date[i])) && ' ' !in date
    requires t != "" && Unbroken(t, IsSpace) && ReadTime(t) == Some(at) && MatchDate(date).Some?
    ensures ReadEndTime(date + " " + t, startsAt, zone) ==
            match MatchDate(date).value
            case (None, month, day) => Upcoming(month, day, at, startsAt, zone)
            case (Some(y), month, day) => DateAt(y, month, day, at, zone)
  {
    var s := date + " " + t;
    WordsAreNormal(date, t);
    CutAt(date, ' ', t);
    DateIsNoTime(date, " " + t);
    assert s == date + (" " + t) && s == date + [' '] + t;
    assert ReadEndTime(s, startsAt, zone) == ReadClock(s, startsAt, zone) == ReadAbsolute(s, startsAt, zone, TimeOfDay(0, 0));
  }

  lemma ShortIsDateLike(month: string, day: string, a: char)
    requires ShortNumber(month) && ShortNumber(day) && IsDateSeparator(a)
    ensures DateLike(ShortDate(month, day, a))
    ensures exists i :: 0 <= i < |ShortDate(month, day, a)| && IsDateSeparator(ShortDate(month, day, a)[i])
  {
    assert ShortDate(month, day, a)[|month|] == a;
  }

  lemma FullIsDateLike(year: string, month: string, day: string, a: char, b: char)
    requires |year| == 4 && AllDigits(year) && ShortNumber(month) && ShortNumber(day)
    requires IsDateSeparator(a) && IsDateSeparator(b)
    ensures DateLike(FullDate(year, month, day, a, b))
    ensures exists i :: 0 <= i < |FullDate(year, month, day, a, b)| && IsDateSeparator(FullDate(year, month, day, a, b)[i])
  {
    ShortIsDateLike(month, day, b);
    assert FullDate(year, month, day, a, b)[4] == a;
  }

  /** A date with its year, year first and day last, is that day of the calendar in the zone,
      at the given time or at midnight; a day that does not exist is refused. */
  lemma FullDateEnds(year: string, month: string, day: string, a: char, b: char, time: Option<TimeOfDay>, startsAt: int, zone: int)
    requires |year| == 4 && AllDigits(year) && ShortNumber(month) && ShortNumber(day)
    requires IsDateSeparator(a) && IsDateSeparator(b) && (time.Some? ==> time.value.Valid())
    ensures var (y, m, d) := (Number(year), Number(month), Number(day));
      ReadEndTime(Dated(FullDate(year, month, day, a, b), time), startsAt, zone) ==
      if IsDate(y, m, d) then Some(Instant(DayNumber(y, m, d), TimeOr(time), zone)) else None
  {
    FullDateReads(year, month, day, a, b);
    FullIsDateLike(year, month, day, a, b);
    DateReads(FullDate(year, month, day, a, b), Some(Number(year)), Number(month), Number(day), time, startsAt, zone);
    DateAtIs(Number(year), Number(month), Number(day), TimeOr(time), zone);
  }

  /** A date without a year, month first, is that day in the year of the start, or in the next
      if it is past then: at most 366 days after the start, and refused if it does not exist. */
  lemma ShortDateEnds(month: string, day: string, a: char, time: Option<TimeOfDay>, startsAt: int, zone: int)
    requires ShortNumber(month) && ShortNumber(day) && IsDateSeparator(a) && (time.Some? ==> time.value.Valid())
    ensures var m, d, y := Number(month), Number(day), LocalYear(startsAt, zone);
      var past := Instant(DayNumber(y, m, d), TimeOr(time), zone) < startsAt;
      var r := ReadEndTime(Dated(ShortDate(month, day, a), time), startsAt, zone);
      && (r.Some? <==> IsDate(y, m, d) && (past ==> IsDate(y + 1, m, d)))
      && (r.Some? ==>
            && startsAt <= r.value < startsAt + 366 * DAY
            && r.value == Instant(DayNumber(if past then y + 1 else y, m, d), TimeOr(time), zone))
  {
    ShortDateReads(month, day, a);
    ShortIsDateLike(month, day, a);
    DateReads(ShortDate(month, day, a), None, Number(month), Number(day), time, startsAt, zone);
    UpcomingIsNext(Number(month), Number(day), TimeOr(time), startsAt, zone);
  }
}
