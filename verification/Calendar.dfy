/** Dates without a year, and times as users write them (bot/datetime.go), over the Gregorian
    calendar as time.Date computes it. A time zone is a fixed offset from UTC. */
module Calendar {
  import opened Common
  import opened Decimals
  import opened Texts
  import opened Durations
  import opened Clocks
  import opened Reminders

  // ----- the Gregorian calendar, days counted from the first day of year 0

  const DAYS_PER_ERA: int := 146_097

  /** The day number of 1970-01-01. */
  const EPOCH: int := 719_528

  predicate IsLeap(year: int) {
    year % 4 == 0 && (year % 100 != 0 || year % 400 == 0)
  }

  function DaysIn(year: int, month: int): int {
    if month == 2 then (if IsLeap(year) then 29 else 28)
    else if month in {4, 6, 9, 11} then 30
    else 31
  }

  predicate IsDate(year: int, month: int, day: int) {
    1 <= month <= 12 && 1 <= day <= DaysIn(year, month)
  }

  /** The number of the first day of a year. */
  function YearStart(year: int): int {
    365 * year + (year + 3) / 4 - (year + 99) / 100 + (year + 399) / 400
  }

  /** Days of the year before its month `month`. */
  function MonthStart(year: int, month: int): int
    requires 1 <= month <= 13
    decreases month
  {
    if month == 1 then 0 else MonthStart(year, month - 1) + DaysIn(year, month - 1)
  }

  /** The day of time.Date(year, month, day): months beyond the year are carried over, days
      beyond the month count on. */
  function DayNumber(year: int, month: int, day: int): int {
    var y := year + (month - 1) / 12;
    YearStart(y) + MonthStart(y, (month - 1) % 12 + 1) + day - 1
  }

  lemma StepOf4(x: int)
    ensures (x + 4) / 4 - (x + 3) / 4 == if x % 4 == 0 then 1 else 0
  {
  }

  lemma StepOf100(x: int)
    ensures (x + 100) / 100 - (x + 99) / 100 == if x % 100 == 0 then 1 else 0
    ensures x % 100 == 0 ==> x % 4 == 0
  {
  }

  lemma StepOf400(x: int)
    ensures (x + 400) / 400 - (x + 399) / 400 == if x % 400 == 0 then 1 else 0
    ensures x % 400 == 0 ==> x % 100 == 0
  {
  }

  lemma YearLength(year: int)
    ensures YearStart(year + 1) == YearStart(year) + (if IsLeap(year) then 366 else 365)
    ensures MonthStart(year, 13) == if IsLeap(year) then 366 else 365
  {
    StepOf4(year);
    StepOf100(year);
    StepOf400(year);
    MonthTable(year);
  }

  lemma MonthTable(year: int)
    ensures MonthStart(year, 3) == 31 + DaysIn(year, 2)
    ensures MonthStart(year, 6) == MonthStart(year, 3) + 92
    ensures MonthStart(year, 9) == MonthStart(year, 6) + 92
    ensures MonthStart(year, 13) == MonthStart(year, 9) + 122
  {
    assert MonthStart(year, 2) == 31;
    assert MonthStart(year, 4) == MonthStart(year, 3) + 31;
    assert MonthStart(year, 5) == MonthStart(year, 4) + 30;
    assert MonthStart(year, 7) == MonthStart(year, 6) + 30;
    assert MonthStart(year, 8) == MonthStart(year, 7) + 31;
    assert MonthStart(year, 10) == MonthStart(year, 9) + 30;
    assert MonthStart(year, 11) == MonthStart(year, 10) + 31;
    assert MonthStart(year, 12) == MonthStart(year, 11) + 30;
  }

  lemma ShiftBy4(x: int, k: int)
    ensures (x + 4 * k) / 4 == x / 4 + k && (x + 4 * k) % 4 == x % 4
  {
  }

  lemma ShiftBy100(x: int, k: int)
    ensures (x + 100 * k) / 100 == x / 100 + k && (x + 100 * k) % 100 == x % 100
  {
  }

  lemma ShiftBy400(x: int, k: int)
    ensures (x + 400 * k) / 400 == x / 400 + k && (x + 400 * k) % 400 == x % 400
  {
  }

  /** The calendar repeats after 400 years. */
  lemma EraLength(year: int, eras: int)
    ensures YearStart(year + 400 * eras) == YearStart(year) + DAYS_PER_ERA * eras
    ensures IsLeap(year + 400 * eras) == IsLeap(year)
  {
    ShiftBy4(year + 3, 100 * eras);
    ShiftBy4(year, 100 * eras);
    ShiftBy100(year + 99, 4 * eras);
    ShiftBy100(year, 4 * eras);
    ShiftBy400(year + 399, eras);
    ShiftBy400(year, eras);
  }

  // ----- decoding a day number

  /** The first year from `from` on that does not end before day `n`. */
  function YearWithin(n: int, from: int): (y: int)
    requires YearStart(from) <= n
    ensures YearStart(y) <= n < YearStart(y + 1)
    decreases n - YearStart(from)
  {
    YearLength(from);
    if n < YearStart(from + 1) then from else YearWithin(n, from + 1)
  }

  function YearOf(n: int): int {
    var era, day := n / DAYS_PER_ERA, n % DAYS_PER_ERA;
    assert YearStart(0) == 0;
    YearWithin(day, 0) + 400 * era
  }

  function MonthWithin(year: int, day: int, from: int): (m: int)
    requires 1 <= from <= 12 && MonthStart(year, from) <= day < MonthStart(year, 13)
    ensures from <= m <= 12 && MonthStart(year, m) <= day < MonthStart(year, m + 1)
    decreases 12 - from
  {
    if day < MonthStart(year, from + 1) then from else MonthWithin(year, day, from + 1)
  }

  datatype Date = Date(year: int, month: int, day: int)

  lemma YearOfDay(n: int)
    ensures YearStart(YearOf(n)) <= n < YearStart(YearOf(n) + 1)
  {
    var era, day := n / DAYS_PER_ERA, n % DAYS_PER_ERA;
    assert YearStart(0) == 0;
    var y := YearWithin(day, 0);
    EraLength(y, era);
    EraLength(y + 1, era);
    assert n == day + DAYS_PER_ERA * era;
    assert y + 1 + 400 * era == YearOf(n) + 1;
  }

  /** Year(), Month() and Day() of a day. */
  function DateOf(n: int): Date {
    YearOfDay(n);
    YearLength(YearOf(n));
    var year, day := YearOf(n), n - YearStart(YearOf(n));
    var month := MonthWithin(year, day, 1);
    Date(year, month, day - MonthStart(year, month) + 1)
  }

  lemma {:induction false} YearsGrow(a: int, b: int)
    requires a < b
    ensures YearStart(a + 1) <= YearStart(b)
    decreases b - a
  {
    if a + 1 < b {
      YearLength(a + 1);
      YearsGrow(a + 1, b);
    }
  }

  lemma {:induction false} MonthsGrow(year: int, a: int, b: int)
    requires 1 <= a < b <= 13
    ensures MonthStart(year, a + 1) <= MonthStart(year, b)
    decreases b - a
  {
    if a + 1 < b {
      MonthsGrow(year, a + 1, b);
    }
  }

  lemma MonthFits(year: int, month: int)
    requires 1 <= month <= 12
    ensures MonthStart(year, month + 1) == MonthStart(year, month) + DaysIn(year, month)
    ensures 0 <= MonthStart(year, month) && MonthStart(year, month + 1) <= MonthStart(year, 13)
  {
    if month > 1 { MonthsGrow(year, 1, month); }
    if month < 12 { MonthsGrow(year, month + 1, 13); }
  }

  /** Decoding gives a real date whose number is the day. */
  lemma DateIsReal(n: int)
    ensures var d := DateOf(n); IsDate(d.year, d.month, d.day) && DayNumber(d.year, d.month, d.day) == n
  {
    YearOfDay(n);
    YearLength(YearOf(n));
    var d := DateOf(n);
    MonthFits(d.year, d.month);
    Uncarried(d.year, d.month, d.day);
  }

  lemma Uncarried(year: int, month: int, day: int)
    requires 1 <= month <= 12
    ensures DayNumber(year, month, day) == YearStart(year) + MonthStart(year, month) + day - 1
  {
    assert (month - 1) / 12 == 0 && (month - 1) % 12 + 1 == month;
  }

  /** A day lies in exactly one year and month. */
  lemma DateIsUnique(year: int, month: int, day: int)
    requires IsDate(year, month, day)
    ensures DateOf(DayNumber(year, month, day)) == Date(year, month, day)
  {
    var n := DayNumber(year, month, day);
    Uncarried(year, month, day);
    MonthFits(year, month);
    YearLength(year);
    assert YearStart(year) <= n < YearStart(year + 1);
    YearOfDay(n);
    var d := DateOf(n);
    if d.year < year { YearsGrow(d.year, year); }
    if d.year > year { YearsGrow(year, d.year); }
    assert d.year == year;
    DateIsReal(n);
    Uncarried(year, d.month, d.day);
    MonthFits(year, d.month);
    if d.month < month { MonthsGrow(year, d.month, month); }
    if d.month > month { MonthsGrow(year, month, d.month); }
  }

  /** The numbers follow the order of the dates, and 1970-01-01 is the epoch: together with
      the two lemmas above this leaves only one way to number the days. */
  lemma DatesInOrder(a: Date, b: Date)
    requires IsDate(a.year, a.month, a.day) && IsDate(b.year, b.month, b.day)
    requires a.year < b.year || (a.year == b.year && (a.month < b.month || (a.month == b.month && a.day < b.day)))
    ensures DayNumber(a.year, a.month, a.day) < DayNumber(b.year, b.month, b.day)
    ensures DayNumber(1970, 1, 1) == EPOCH
  {
    if a.year < b.year {
      NumberInYear(a.year, a.month, a.day);
      NumberInYear(b.year, b.month, b.day);
      YearsGrow(a.year, b.year);
    } else {
      Uncarried(a.year, a.month, a.day);
      Uncarried(b.year, b.month, b.day);
      MonthFits(a.year, a.month);
      if a.month < b.month {
        MonthsGrow(a.year, a.month, b.month);
      }
    }
    Uncarried(1970, 1, 1);
  }

  // ----- dateAt

  function Instant(n: int, at: TimeOfDay, zone: int): int {
    (n - EPOCH) * DAY + at.SinceMidnight() - zone
  }

  /** A date that does not exist is carried over by time.Date; it is refused when the month
      or the day that comes out is not the one that went in. */
  function DateAt(year: int, month: int, day: int, at: TimeOfDay, zone: int): Option<int> {
    var n := DayNumber(year, month, day);
    if DateOf(n).month != month || DateOf(n).day != day then None else Some(Instant(n, at, zone))
  }

  /** dateAt accepts exactly the dates of the Gregorian calendar. */
  lemma DateAtAcceptsRealDates(year: int, month: int, day: int, at: TimeOfDay, zone: int)
    ensures DateAt(year, month, day, at, zone).Some? <==> IsDate(year, month, day)
  {
    var n := DayNumber(year, month, day);
    if IsDate(year, month, day) {
      DateIsUnique(year, month, day);
    } else {
      DateIsReal(n);
      var d := DateOf(n);
      if 1 <= month <= 12 && DaysIn(year, month) < day <= 31 {
        CarriedOver(year, month, day);
      }
    }
  }

  /** The 29th to 31st of a shorter month are the first days of the next. */
  lemma CarriedOver(year: int, month: int, day: int)
    requires 1 <= month <= 12 && DaysIn(year, month) < day <= 31
    ensures DateOf(DayNumber(year, month, day)) == Date(year, month + 1, day - DaysIn(year, month))
  {
    Uncarried(year, month, day);
    MonthFits(year, month);
    Uncarried(year, month + 1, day - DaysIn(year, month));
    DateIsUnique(year, month + 1, day - DaysIn(year, month));
  }

  // ----- dates without a year

  function LocalYear(t: int, zone: int): int {
    YearOf((t + zone) / DAY + EPOCH)
  }

  /** This year, or the next one if that day is past. */
  function UpcomingFrom(year: int, month: int, day: int, at: TimeOfDay, base: int, zone: int): Option<int> {
    match DateAt(year, month, day, at, zone)
    case None => None
    case Some(t) => if t < base then DateAt(year + 1, month, day, at, zone) else Some(t)
  }

  /** The year of the base, or the next one. */
  function Upcoming(month: int, day: int, at: TimeOfDay, base: int, zone: int): Option<int> {
    UpcomingFrom(LocalYear(base, zone), month, day, at, base, zone)
  }

  /** The first instant of a year in the zone. */
  function YearBegins(year: int, zone: int): int {
    (YearStart(year) - EPOCH) * DAY - zone
  }

  lemma BetweenDays(t: int, lo: int, n: int, hi: int)
    requires lo <= n < hi && n == t / DAY + EPOCH
    ensures (lo - EPOCH) * DAY <= t < (hi - EPOCH) * DAY
  {
    DaySplit(t);
  }

  lemma DayInYear(t: int, zone: int, year: int)
    requires YearStart(year) <= (t + zone) / DAY + EPOCH < YearStart(year + 1)
    ensures YearBegins(year, zone) <= t < YearBegins(year + 1, zone)
  {
    BetweenDays(t + zone, YearStart(year), (t + zone) / DAY + EPOCH, YearStart(year + 1));
  }

  /** The base lies in its local year. */
  lemma BaseInYear(base: int, zone: int)
    ensures var y := LocalYear(base, zone); YearBegins(y, zone) <= base < YearBegins(y + 1, zone)
  {
    var n := (base + zone) / DAY + EPOCH;
    YearOfDay(n);
    DayInYear(base, zone, YearOf(n));
  }

  lemma NumberInYear(year: int, month: int, day: int)
    requires IsDate(year, month, day)
    ensures YearStart(year) <= DayNumber(year, month, day) < YearStart(year + 1)
  {
    Uncarried(year, month, day);
    YearLength(year);
    MonthFits(year, month);
  }

  lemma InstantBetween(n: int, lo: int, hi: int, at: TimeOfDay, zone: int)
    requires lo <= n < hi && at.Valid()
    ensures (lo - EPOCH) * DAY - zone <= Instant(n, at, zone) < (hi - EPOCH) * DAY - zone
  {
    assert 0 <= at.SinceMidnight() < DAY;
  }

  lemma DateAtIs(year: int, month: int, day: int, at: TimeOfDay, zone: int)
    ensures DateAt(year, month, day, at, zone) ==
            if IsDate(year, month, day) then Some(Instant(DayNumber(year, month, day), at, zone)) else None
  {
    DateAtAcceptsRealDates(year, month, day, at, zone);
  }

  /** From one year to the next a date moves by at most 366 days. */
  lemma NextYear(year: int, month: int, day: int)
    requires 1 <= month <= 12
    ensures DayNumber(year + 1, month, day) - DayNumber(year, month, day) <= 366
  {
    Uncarried(year, month, day);
    Uncarried(year + 1, month, day);
    YearLength(year);
    LeapShift(year, month);
  }

  lemma {:induction false} LeapShift(year: int, month: int)
    requires 1 <= month <= 13
    ensures MonthStart(year + 1, month) - MonthStart(year, month) ==
            if month <= 2 then 0 else DaysIn(year + 1, 2) - DaysIn(year, 2)
  {
    if month > 1 {
      LeapShift(year, month - 1);
    }
  }

  lemma UpcomingIs(y: int, month: int, day: int, at: TimeOfDay, base: int, zone: int)
    ensures var here, there := Instant(DayNumber(y, month, day), at, zone), Instant(DayNumber(y + 1, month, day), at, zone);
      UpcomingFrom(y, month, day, at, base, zone) ==
      if !IsDate(y, month, day) || (here < base && !IsDate(y + 1, month, day)) then None
      else Some(if here < base then there else here)
  {
    DateAtIs(y, month, day, at, zone);
    DateAtIs(y + 1, month, day, at, zone);
  }

  /** The date lies in its year, and the same date of the next year at most 366 days later. */
  lemma DateBounds(year: int, month: int, day: int, at: TimeOfDay, zone: int)
    requires at.Valid() && IsDate(year, month, day)
    ensures YearBegins(year, zone) <= Instant(DayNumber(year, month, day), at, zone) < YearBegins(year + 1, zone)
    ensures Instant(DayNumber(year + 1, month, day), at, zone) - Instant(DayNumber(year, month, day), at, zone) <= 366 * DAY
  {
    NumberInYear(year, month, day);
    InstantBetween(DayNumber(year, month, day), YearStart(year), YearStart(year + 1), at, zone);
    NextYear(year, month, day);
  }

  lemma YearSpan(year: int, zone: int)
    ensures YearBegins(year + 1, zone) - YearBegins(year, zone) <= 366 * DAY
  {
    YearLength(year);
  }

  /** The date of the year of the base, or of the next year if past, lies within 366 days. */
  lemma DueWithinAYear(year: int, month: int, day: int, at: TimeOfDay, base: int, zone: int)
    requires at.Valid() && IsDate(year, month, day) && YearBegins(year, zone) <= base < YearBegins(year + 1, zone)
    ensures var here, there := Instant(DayNumber(year, month, day), at, zone), Instant(DayNumber(year + 1, month, day), at, zone);
      && here < base + 366 * DAY
      && (here < base ==> there < base + 366 * DAY && (IsDate(year + 1, month, day) ==> base <= there))
  {
    DateBounds(year, month, day, at, zone);
    YearSpan(year, zone);
    if IsDate(year + 1, month, day) {
      DateBounds(year + 1, month, day, at, zone);
    }
  }

  /** A date without a year is the first one from the base on, within 366 days. It is found
      exactly when the date exists in the year of the base, and also in the next if it is past. */
  lemma UpcomingIsNext(month: int, day: int, at: TimeOfDay, base: int, zone: int)
    requires at.Valid()
    ensures var y := LocalYear(base, zone); var past := Instant(DayNumber(y, month, day), at, zone) < base;
      var r := Upcoming(month, day, at, base, zone);
      && (r.Some? <==> IsDate(y, month, day) && (past ==> IsDate(y + 1, month, day)))
      && (r.Some? ==>
            && base <= r.value < base + 366 * DAY
            && r.value == Instant(DayNumber(if past then y + 1 else y, month, day), at, zone))
  {
    BaseInYear(base, zone);
    NextFromYear(LocalYear(base, zone), month, day, at, base, zone);
  }

  lemma NextFromYear(y: int, month: int, day: int, at: TimeOfDay, base: int, zone: int)
    requires at.Valid() && YearBegins(y, zone) <= base < YearBegins(y + 1, zone)
    ensures var past := Instant(DayNumber(y, month, day), at, zone) < base;
      var r := UpcomingFrom(y, month, day, at, base, zone);
      && (r.Some? <==> IsDate(y, month, day) && (past ==> IsDate(y + 1, month, day)))
      && (r.Some? ==>
            && base <= r.value < base + 366 * DAY
            && r.value == Instant(DayNumber(if past then y + 1 else y, month, day), at, zone))
  {
    UpcomingIs(y, month, day, at, base, zone);
    if IsDate(y, month, day) {
      DueWithinAYear(y, month, day, at, base, zone);
    }
  }

  // ----- end times

  /** The same day as the start, or the next if that is not after it. */
  function EndTime(at: TimeOfDay, startsAt: int, zone: int): int {
    var end := On(at, startsAt, zone);
    if end <= startsAt then On(at, startsAt + DAY, zone) else end
  }

  /** A time of day is the first instant after the start at which the clock shows it, so at
      most 24 hours later. */
  lemma EndTimeIsNext(at: TimeOfDay, startsAt: int, zone: int)
    requires at.Valid()
    ensures startsAt < EndTime(at, startsAt, zone) <= startsAt + DAY
    ensures ShowsTime(at, EndTime(at, startsAt, zone), zone)
    ensures forall t :: startsAt < t && ShowsTime(at, t, zone) ==> EndTime(at, startsAt, zone) <= t
  {
    var local, m := startsAt + zone, at.SinceMidnight();
    var q := local / DAY;
    DaySplit(local);
    DayParts(local + DAY, q + 1, local % DAY);
    assert 0 <= m < DAY;
    var end := EndTime(at, startsAt, zone);
    DayParts(end + zone, if On(at, startsAt, zone) <= startsAt then q + 1 else q, m);
    forall t | startsAt < t && ShowsTime(at, t, zone)
      ensures end <= t
    {
      DaySplit(t + zone);
    }
  }

  // ----- the text

  predicate IsDateSeparator(c: char) {
    c == '-' || c == '/'
  }

  /** The pieces between separators, empty ones included. */
  function Pieces(s: string, piece: string): seq<string> {
    if s == "" then [piece]
    else if IsDateSeparator(s[0]) then [piece] + Pieces(s[1..], "")
    else Pieces(s[1..], piece + [s[0]])
  }

  predicate ShortNumber(s: string) {
    1 <= |s| <= 2 && AllDigits(s)
  }

  /** ^(?:(\\d{4})[-/])?(\\d{1,2})[-/](\\d{1,2})$ */
  function MatchDate(s: string): Option<(Option<int>, int, int)> {
    var p := Pieces(s, "");
    if |p| == 2 && ShortNumber(p[0]) && ShortNumber(p[1]) then Some((None, Number(p[0]), Number(p[1])))
    else if |p| == 3 && |p[0]| == 4 && AllDigits(p[0]) && ShortNumber(p[1]) && ShortNumber(p[2])
      then Some((Some(Number(p[0])), Number(p[1]), Number(p[2])))
    else None
  }

  /** parseAbsolute: a date, then optionally a blank and a time. */
  function ReadAbsolute(s: string, base: int, zone: int, fallback: TimeOfDay): Option<int> {
    var rest := match Cut(s, ' ') case None => "" case Some((_, rest)) => rest;
    match MatchDate(DateWord(s))
    case None => None
    case Some((year, month, day)) =>
      match (if rest == "" then Some(fallback) else ReadTime(rest))
      case None => None
      case Some(at) =>
        match year
        case Some(y) => DateAt(y, month, day, at, zone)
        case None => Upcoming(month, day, at, base, zone)
  }

  /** That long after the start, if it is any time at all. */
  function After(d: Option<int>, startsAt: int): Option<int> {
    if d.Some? && d.value > 0 then Some(startsAt + d.value) else None
  }

  /** A text that begins with a plus is a duration; others are a time of day or a date. */
  function ReadEnd(s: string, parse: string -> Option<int>, read: string -> Option<int>, startsAt: int): Option<int> {
    if s == "" then None
    else if s[0] == '+' && |s| > 1 then After(parse(s[1..]), startsAt)
    else read(s)
  }

  function ReadClock(s: string, startsAt: int, zone: int): Option<int> {
    match ReadTime(s)
    case Some(at) => Some(EndTime(at, startsAt, zone))
    case None => ReadAbsolute(s, startsAt, zone, TimeOfDay(0, 0))
  }

  function Clock(startsAt: int, zone: int): string -> Option<int> {
    (s: string) => ReadClock(s, startsAt, zone)
  }

  function ReadEndTime(input: string, startsAt: int, zone: int): Option<int> {
    ReadEnd(Normalize(input), ParseDuration, Clock(startsAt, zone), startsAt)
  }

  /** A text that is neither a duration nor a time of day is a date, without a year before 366
      days have passed since the base. */
  lemma AbsoluteFollows(s: string, base: int, zone: int, fallback: TimeOfDay)
    requires fallback.Valid() && ReadAbsolute(s, base, zone, fallback).Some?
    ensures MatchDate(DateWord(s)).Some?
    ensures MatchDate(DateWord(s)).value.0.None? ==>
              base <= ReadAbsolute(s, base, zone, fallback).value < base + 366 * DAY
  {
    var (_, month, day) := MatchDate(DateWord(s)).value;
    var rest := match Cut(s, ' ') case None => "" case Some((_, rest)) => rest;
    var at := if rest == "" then fallback else ReadTime(rest).value;
    UpcomingIsNext(month, day, at, base, zone);
  }

  function DateWord(s: string): string {
    match Cut(s, ' ')
    case None => s
    case Some((date, _)) => date
  }

  /** An end time that is accepted: a duration lies after the start, a bare time of day at most
      a day after it, a date without a year not before it and less than 366 days after. */
  lemma EndTimeFollows(input: string, startsAt: int, zone: int)
    requires ReadEndTime(input, startsAt, zone).Some?
    ensures var s := Normalize(input); var end := ReadEndTime(input, startsAt, zone).value;
      if s[0] == '+' && |s| > 1 then startsAt < end
      else if ReadTime(s).Some? then startsAt < end <= startsAt + DAY
      else MatchDate(DateWord(s)).Some?
           && (MatchDate(DateWord(s)).value.0.None? ==> startsAt <= end < startsAt + 366 * DAY)
  {
    var s := Normalize(input);
    if !(s[0] == '+' && |s| > 1) {
      match ReadTime(s) {
        case Some(at) => EndTimeIsNext(at, startsAt, zone);
        case None => AbsoluteFollows(s, startsAt, zone, TimeOfDay(0, 0));
      }
    }
  }
}
