/** Reminder policies and the instants they generate (domain/reminder.go,
    domain/timeofday.go). A time zone is a fixed offset from UTC. */
module Reminders {
  import opened Common
  import opened Sorting

  datatype TimeOfDay = TimeOfDay(hour: int, minute: int) {
    predicate Valid() {
      0 <= hour <= 23 && 0 <= minute <= 59
    }

    function SinceMidnight(): int {
      hour * HOUR + minute * MINUTE
    }
  }

  /** One constructor per mode, with the fields that mode reads. */
  datatype Policy =
    | Silent
    | Offsets(offsets: seq<int>)
    | Interval(every: int, at: TimeOfDay, finalOffset: int)
    | UnknownMode(mode: string)

  const MAX_REMINDERS: int := 30
  const MIN_INTERVAL: int := HOUR
  const DEFAULT_FINAL_OFFSET: int := 3 * HOUR

  datatype ScheduleError = InvalidPolicy | TooMany

  // ----- validation

  ghost predicate ValidOffsets(offsets: seq<int>) {
    && 1 <= |offsets| <= MAX_REMINDERS
    && (forall i :: 0 <= i < |offsets| ==> offsets[i] > 0)
    && Distinct(offsets)
  }

  ghost predicate Valid(p: Policy) {
    match p
    case Silent => true
    case Offsets(offsets) => ValidOffsets(offsets)
    case Interval(every, at, finalOffset) => every >= MIN_INTERVAL && at.Valid() && finalOffset >= 0
    case UnknownMode(_) => false
  }

  /** validateOffsets: one pass with a set of the entries seen so far. */
  method ValidateOffsets(offsets: seq<int>) returns (ok: bool)
    ensures ok <==> ValidOffsets(offsets)
  {
    if |offsets| == 0 {
      return false;
    }
    ok := |offsets| <= MAX_REMINDERS;
    var seen: set<int> := {};
    for i := 0 to |offsets|
      invariant seen == set k | 0 <= k < i :: offsets[k]
      invariant ok <==> |offsets| <= MAX_REMINDERS
                        && (forall k :: 0 <= k < i ==> offsets[k] > 0)
                        && Distinct(offsets[..i])
    {
      if offsets[i] <= 0 {
        ok := false;
      }
      if offsets[i] in seen {
        ok := false;
      }
      assert offsets[..i + 1] == offsets[..i] + [offsets[i]];
      if offsets[i] in seen {
        var k :| 0 <= k < i && offsets[k] == offsets[i];
        assert offsets[..i + 1][k] == offsets[..i + 1][i];
      }
      seen := seen + {offsets[i]};
    }
    assert offsets[..|offsets|] == offsets;
  }

  method Validate(p: Policy) returns (ok: bool)
    ensures ok <==> Valid(p)
    ensures p.Silent? ==> ok
    ensures p.Offsets? ==>
              (ok <==> 1 <= |p.offsets| <= 30 && Distinct(p.offsets)
                       && forall k :: 0 <= k < |p.offsets| ==> p.offsets[k] > 0)
    ensures p.Interval? ==>
              (ok <==> p.every >= 60 * MINUTE && 0 <= p.at.hour < 24 && 0 <= p.at.minute < 60 && p.finalOffset >= 0)
    ensures p.UnknownMode? ==> !ok
  {
    match p {
      case Silent => ok := true;
      case Offsets(offsets) => ok := ValidateOffsets(offsets);
      case Interval(every, at, finalOffset) => ok := every >= MIN_INTERVAL && at.Valid() && finalOffset >= 0;
      case UnknownMode(_) => ok := false;
    }
  }

  // ----- the instants of the wall clock

  /** The instant at which the local day containing `t` reaches `at`. */
  function On(at: TimeOfDay, t: int, zone: int): int {
    (t + zone) / DAY * DAY + at.SinceMidnight() - zone
  }

  function FirstInterval(at: TimeOfDay, now: int, zone: int): int {
    var candidate := On(at, now, zone);
    if candidate < now then candidate + DAY else candidate
  }

  /** The local clock shows `at` at this instant. */
  predicate ShowsTime(at: TimeOfDay, t: int, zone: int) {
    (t + zone) % DAY == at.SinceMidnight()
  }

  /** firstInterval is the least instant from `now` on at which the local clock shows `at`. */
  lemma FirstIntervalIsLeast(at: TimeOfDay, now: int, zone: int)
    requires at.Valid()
    ensures var c := FirstInterval(at, now, zone);
            now <= c < now + DAY && ShowsTime(at, c, zone)
    ensures forall t :: now <= t && ShowsTime(at, t, zone) ==> FirstInterval(at, now, zone) <= t
  {
    var local, m := now + zone, at.SinceMidnight();
    var q := local / DAY;
    DaySplit(local);
    assert 0 <= m < DAY;
    var c := FirstInterval(at, now, zone);
    DayParts(c + zone, if On(at, now, zone) < now then q + 1 else q, m);
    forall t | now <= t && ShowsTime(at, t, zone)
      ensures c <= t
    {
      DaySplit(t + zone);
    }
  }

  // ----- the loops of the source

  predicate Le(a: int, b: int) {
    a <= b
  }

  function OffsetTimes(offsets: seq<int>, now: int, startsAt: int): seq<int> {
    if offsets == [] then []
    else
      var last := |offsets| - 1;
      var rest := OffsetTimes(offsets[..last], now, startsAt);
      if startsAt - offsets[last] > now then rest + [startsAt - offsets[last]] else rest
  }

  method ComputeOffsetTimes(offsets: seq<int>, now: int, startsAt: int) returns (times: seq<int>)
    ensures times == OffsetTimes(offsets, now, startsAt)
  {
    times := [];
    for i := 0 to |offsets|
      invariant times == OffsetTimes(offsets[..i], now, startsAt)
    {
      assert offsets[..i + 1][..i] == offsets[..i];
      if startsAt - offsets[i] > now {
        times := times + [startsAt - offsets[i]];
      }
    }
    assert offsets[..|offsets|] == offsets;
  }

  /** The interval loop from `t` on, cut off once more than the limit has been collected. */
  function IntervalFrom(t: int, every: int, now: int, final: int, acc: seq<int>): seq<int>
    requires every > 0
    decreases final - t
  {
    if t >= final then acc
    else
      var times := if t > now then acc + [t] else acc;
      if |times| > MAX_REMINDERS then times else IntervalFrom(t + every, every, now, final, times)
  }

  function IntervalTimes(every: int, at: TimeOfDay, finalOffset: int, now: int, startsAt: int, zone: int): seq<int>
    requires every > 0
  {
    var final := startsAt - finalOffset;
    var times := IntervalFrom(FirstInterval(at, now, zone), every, now, final, []);
    if final > now then times + [final] else times
  }

  /** With a fixed offset, moving a whole number of calendar days is adding that many times 24 hours. */
  function Advance(t: int, every: int): int {
    if every % DAY == 0 then t + every / DAY * DAY else t + every
  }

  method ComputeIntervalTimes(every: int, at: TimeOfDay, finalOffset: int, now: int, startsAt: int, zone: int)
    returns (times: seq<int>)
    requires every > 0
    ensures times == IntervalTimes(every, at, finalOffset, now, startsAt, zone)
  {
    var final := startsAt - finalOffset;
    times := [];
    var t := FirstInterval(at, now, zone);
    ghost var whole := IntervalFrom(t, every, now, final, []);
    while t < final
      invariant IntervalFrom(t, every, now, final, times) == whole
      decreases final - t
    {
      if t > now {
        times := times + [t];
      }
      if |times| > MAX_REMINDERS {
        break;
      }
      DaySplit(every);
      t := Advance(t, every);
    }
    if final > now {
      times := times + [final];
    }
  }

  function UnsortedTimes(p: Policy, now: int, startsAt: int, zone: int): seq<int>
    requires Valid(p)
  {
    match p
    case Offsets(offsets) => OffsetTimes(offsets, now, startsAt)
    case Interval(every, at, finalOffset) => IntervalTimes(every, at, finalOffset, now, startsAt, zone)
    case _ => []
  }

  function Schedule(p: Policy, now: int, startsAt: int, zone: int): Result<seq<int>, ScheduleError>
    requires Valid(p)
  {
    var tidy := Compact(Sort(UnsortedTimes(p, now, startsAt, zone), Le));
    if |tidy| > MAX_REMINDERS then Err(TooMany) else Ok(tidy)
  }

  method ComputeSchedule(p: Policy, now: int, startsAt: int, zone: int)
    returns (r: Result<seq<int>, ScheduleError>)
    ensures r == if Valid(p) then Schedule(p, now, startsAt, zone) else Err(InvalidPolicy)
  {
    var valid := Validate(p);
    if !valid {
      return Err(InvalidPolicy);
    }
    var times: seq<int> := [];
    match p {
      case Silent =>
        return Ok([]);
      case Offsets(offsets) =>
        times := ComputeOffsetTimes(offsets, now, startsAt);
      case Interval(every, at, finalOffset) =>
        times := ComputeIntervalTimes(every, at, finalOffset, now, startsAt, zone);
    }
    times := Compact(Sort(times, Le));
    if |times| > MAX_REMINDERS {
      return Err(TooMany);
    }
    return Ok(times);
  }

  // ----- what the schedule means

  /** The uncut specification: the policy asks for a reminder at instant `t`. */
  ghost predicate Wanted(p: Policy, now: int, startsAt: int, zone: int, t: int) {
    match p
    case Offsets(offsets) => t > now && startsAt - t in offsets
    case Interval(every, at, finalOffset) =>
      && every > 0
      && (var c, final := FirstInterval(at, now, zone), startsAt - finalOffset;
          || now < t == final
          || (now < t < final && OnGrid(c, every, t)))
    case _ => false
  }

  ghost predicate OnGrid(c: int, every: int, t: int)
    requires every > 0
  {
    exists k: nat :: t == GridPoint(c, every, k)
  }

  ghost function GridPoint(c: int, every: int, k: nat): int {
    c + k * every
  }

  /** Every wanted instant lies after `now` and no later than the start. */
  ghost function WantedSet(p: Policy, now: int, startsAt: int, zone: int): set<int> {
    set t | now < t <= startsAt && Wanted(p, now, startsAt, zone, t)
  }

  ghost predicate Ascending(s: seq<int>) {
    forall i, j :: 0 <= i < j < |s| ==> s[i] < s[j]
  }

  lemma {:induction false} OffsetTimesWanted(offsets: seq<int>, now: int, startsAt: int)
    requires Distinct(offsets)
    ensures var r := OffsetTimes(offsets, now, startsAt);
            Distinct(r) && forall t :: t in r <==> t > now && startsAt - t in offsets
  {
    if offsets != [] {
      var last := |offsets| - 1;
      var front := offsets[..last];
      OffsetTimesWanted(front, now, startsAt);
      assert offsets == front + [offsets[last]];
      assert offsets[last] !in front;
      var rest := OffsetTimes(front, now, startsAt);
      assert startsAt - offsets[last] !in rest;
      DistinctAppend(rest, startsAt - offsets[last]);
      forall t
        ensures t in OffsetTimes(offsets, now, startsAt) <==> t > now && startsAt - t in offsets
      {
      }
    }
  }

  /** The loop has collected the grid points after `now` and before `t`. */
  ghost predicate Collected(c: int, every: int, now: int, t: int, acc: seq<int>)
    requires every > 0
  {
    && Ascending(acc)
    && (forall x :: x in acc <==> now < x < t && OnGrid(c, every, x))
  }

  /** If the loop is not cut it has collected the whole grid; if it is cut there are too many. */
  lemma {:induction false} IntervalFromWanted(c: int, every: int, now: int, k: nat, final: int, acc: seq<int>)
    requires every > 0 && Collected(c, every, now, GridPoint(c, every, k), acc)
    requires forall x :: x in acc ==> x < final
    ensures var r := IntervalFrom(GridPoint(c, every, k), every, now, final, acc);
            && Ascending(r)
            && (forall x :: x in r ==> now < x < final && OnGrid(c, every, x))
            && (|r| <= MAX_REMINDERS ==> forall x :: now < x < final && OnGrid(c, every, x) ==> x in r)
    decreases final - GridPoint(c, every, k)
  {
    var t := GridPoint(c, every, k);
    if t >= final {
    } else {
      var times := if t > now then acc + [t] else acc;
      assert GridPoint(c, every, k + 1) == t + every;
      forall x
        ensures x in times <==> now < x < t + every && OnGrid(c, every, x)
      {
        GridGap(c, every, k, x);
      }
      forall i, j | 0 <= i < j < |times|
        ensures times[i] < times[j]
      {
        assert times[i] in acc && (j < |acc| || times[j] == t);
      }
      if |times| <= MAX_REMINDERS {
        IntervalFromWanted(c, every, now, k + 1, final, times);
      }
    }
  }

  lemma {:induction false} GridMonotone(c: int, every: int, m: nat, k: nat)
    requires every > 0 && m < k
    ensures GridPoint(c, every, m) + every <= GridPoint(c, every, k)
  {
    assert k * every == (k - 1) * every + every;
    if m < k - 1 {
      GridMonotone(c, every, m, k - 1);
    }
  }

  /** The grid has no point strictly between two consecutive ones. */
  lemma GridGap(c: int, every: int, k: nat, x: int)
    requires every > 0
    ensures GridPoint(c, every, k + 1) == GridPoint(c, every, k) + every
    ensures GridPoint(c, every, k) <= x < GridPoint(c, every, k + 1) && OnGrid(c, every, x)
            ==> x == GridPoint(c, every, k)
    ensures OnGrid(c, every, GridPoint(c, every, k))
  {
    assert (k + 1) * every == k * every + every;
    if GridPoint(c, every, k) <= x < GridPoint(c, every, k + 1) && OnGrid(c, every, x) {
      var m: nat :| x == GridPoint(c, every, m);
      if m < k {
        GridMonotone(c, every, m, k);
      } else if m > k {
        GridMonotone(c, every, k, m);
      }
    }
  }

  lemma LeIsTotal()
    ensures TotalOrder(Le)
  {
  }

  lemma AscendingDistinct(s: seq<int>)
    requires Distinct(s)
    ensures Ascending(Sort(s, Le))
    ensures Compact(Sort(s, Le)) == Sort(s, Le)
  {
    LeIsTotal();
    SortSorts(s, Le);
    SortKeepsDistinct(s, Le);
    CompactDistinct(Sort(s, Le));
  }

  /** The collected instants before sorting: distinct, wanted, and all of them unless the
      loop was cut, in which case there are already too many. */
  lemma CollectedTimes(p: Policy, now: int, startsAt: int, zone: int, times: seq<int>)
    requires Valid(p) && times == UnsortedTimes(p, now, startsAt, zone)
    ensures Distinct(times)
    ensures forall t :: t in times ==> t in WantedSet(p, now, startsAt, zone)
    ensures |times| <= MAX_REMINDERS ==> forall t :: t in times <==> Wanted(p, now, startsAt, zone, t)
  {
    match p {
      case Offsets(offsets) =>
        OffsetTimesWanted(offsets, now, startsAt);
      case Interval(every, at, finalOffset) =>
        var c, final := FirstInterval(at, now, zone), startsAt - finalOffset;
        assert GridPoint(c, every, 0) == c;
        IntervalFromWanted(c, every, now, 0, final, []);
        var grid := IntervalFrom(c, every, now, final, []);
        assert final !in grid;
        DistinctAppend(grid, final);
      case _ =>
    }
  }

  lemma ManyWanted(times: seq<int>, wanted: set<int>)
    requires Distinct(times) && forall t :: t in times ==> t in wanted
    ensures |times| <= |wanted|
    ensures (forall t :: t in wanted ==> t in times) ==> |times| == |wanted|
  {
    DistinctSize(times);
    assert Elements(times) <= wanted;
    SubsetSize(Elements(times), wanted);
    if forall t :: t in wanted ==> t in times {
      assert Elements(times) == wanted;
    }
  }

  /** Schedule returns the wanted instants in strictly ascending order, and refuses exactly
      when there are more than the limit. The early cut of the loop never changes the
      verdict, and removing duplicates never removes anything. */
  lemma ScheduleIsWanted(p: Policy, now: int, startsAt: int, zone: int)
    requires Valid(p)
    ensures Schedule(p, now, startsAt, zone).Ok? <==> |WantedSet(p, now, startsAt, zone)| <= MAX_REMINDERS
    ensures var r := Schedule(p, now, startsAt, zone);
            r.Ok? ==>
              && Ascending(r.value)
              && |r.value| == |WantedSet(p, now, startsAt, zone)|
              && (forall t :: t in r.value <==> Wanted(p, now, startsAt, zone, t))
              && (forall t :: t in r.value ==> now < t <= startsAt)
  {
    var times := UnsortedTimes(p, now, startsAt, zone);
    CollectedTimes(p, now, startsAt, zone, times);
    AscendingDistinct(times);
    SortMembers(times, Le);
    ManyWanted(times, WantedSet(p, now, startsAt, zone));
  }
}
