/** Times of day as text: `HH:MM` printed (domain/timeofday.go), `H:MM` or `HH:MM` read
    (parseTimeOfDay in bot/datetime.go). */
module Clocks {
  import opened Common
  import opened Decimals
  import opened Durations
  import opened Reminders

  function TwoDigits(n: int): string
    requires 0 <= n < 100
  {
    [Digit(n / 10), Digit(n % 10)]
  }

  function ShowTime(at: TimeOfDay): string
    requires at.Valid()
  {
    TwoDigits(at.hour) + ":" + TwoDigits(at.minute)
  }

  /** ^(\d{1,2}):(\d{2})$, within range. */
  function ReadTime(s: string): (r: Option<TimeOfDay>)
    ensures r.Some? ==> r.value.Valid()
  {
    var k := RunLength(s, IsDigit);
    if !(1 <= k <= 2 && |s| == k + 3 && s[k] == ':' && AllDigits(s[k + 1..])) then None
    else
      var at := TimeOfDay(Number(s[..k]), Number(s[k + 1..]));
      if at.Valid() then Some(at) else None
  }

  lemma TwoDigitsRead(n: int)
    requires 0 <= n < 100
    ensures AllDigits(TwoDigits(n)) && Number(TwoDigits(n)) == n
  {
    var s := TwoDigits(n);
    assert s[..|s| - 1] == [Digit(n / 10)];
    assert [Digit(n / 10)][..0] == "" && Number("") == 0;
    assert Number([Digit(n / 10)]) == n / 10;
  }

  /** A printed time is read back. */
  lemma TimeRoundTrip(at: TimeOfDay)
    requires at.Valid()
    ensures ReadTime(ShowTime(at)) == Some(at)
  {
    var h, m := TwoDigits(at.hour), TwoDigits(at.minute);
    TwoDigitsRead(at.hour);
    TwoDigitsRead(at.minute);
    assert ShowTime(at) == h + (":" + m);
    RunOf(h, ":" + m, IsDigit);
    assert ShowTime(at)[..2] == h && ShowTime(at)[3..] == m;
  }
}
