/** Reminders are regenerated exactly and sent at most once (usecase/reminder.go), however
    often an event is edited and even if workers crash between logging and completing. */
module ReminderRuns {
  import opened Common
  import opened Jobs
  import opened Reminders
  import opened Participations
  import opened Events
  import opened Manager
  import JobShapes
  import Roster

  // ----- regeneration

  function Unsent(logs: seq<ReminderLog>, eventId: nat, times: seq<int>): seq<int> {
    if times == [] then []
    else if SentAt(logs, eventId, times[0]) then Unsent(logs, eventId, times[1..])
    else [times[0]] + Unsent(logs, eventId, times[1..])
  }

  /** One pending job per time, with consecutive numbers and ids. */
  function Numbered(eventId: nat, sequence: int, times: seq<int>, id: nat, now: int): seq<Job>
    decreases |times|
  {
    if times == [] then []
    else [Stored(NewReminderJob(eventId, sequence, times[0]), id, now)]
         + Numbered(eventId, sequence + 1, times[1..], id + 1, now)
  }

  lemma {:induction false} NumberedAt(eventId: nat, sequence: int, times: seq<int>, id: nat, now: int)
    ensures var r := Numbered(eventId, sequence, times, id, now);
      && |r| == |times|
      && forall k :: 0 <= k < |r| ==> r[k] == Stored(NewReminderJob(eventId, sequence + k, times[k]), id + k, now)
    decreases |times|
  {
    if times != [] {
      NumberedAt(eventId, sequence + 1, times[1..], id + 1, now);
    }
  }

  /** All numbers used so far in this event are below `sequence`. */
  ghost predicate Below(jobs: seq<Job>, eventId: nat, sequence: int) {
    forall i :: 0 <= i < |jobs| && jobs[i].kind == Reminder && jobs[i].eventId == eventId ==>
      jobs[i].payload.sequence < sequence
  }

  /** Numbering above everything used before, the loop never meets a duplicate key, so it
      stores a job for every time that was not sent. */
  lemma {:induction false} EnqueueIsExact(db: Db, eventId: nat, sequence: int, times: seq<int>, now: int)
    requires JobShapes.Inv(db) && eventId < db.nextId && Below(db.jobs, eventId, sequence)
    ensures EnqueueReminders(db, eventId, sequence, times, now).jobs ==
            db.jobs + Numbered(eventId, sequence, Unsent(db.logs, eventId, times), db.nextId, now)
    decreases |times|
  {
    if times == [] {
      assert db.jobs + [] == db.jobs;
    } else if SentAt(db.logs, eventId, times[0]) {
      EnqueueIsExact(db, eventId, sequence, times[1..], now);
    } else {
      var job := NewReminderJob(eventId, sequence, times[0]);
      forall i | 0 <= i < |db.jobs|
        ensures db.jobs[i].key != job.key
      {
        assert JobShapes.Shaped(db.jobs[i]);
      }
      JobShapes.EnqueueKeepsInv(db, job, now);
      var db1 := EnqueueJob(db, job, now);
      EnqueueIsExact(db1, eventId, sequence + 1, times[1..], now);
      var rest := Numbered(eventId, sequence + 1, Unsent(db.logs, eventId, times[1..]), db.nextId + 1, now);
      assert db.jobs + [Stored(job, db.nextId, now)] + rest == db.jobs + ([Stored(job, db.nextId, now)] + rest);
    }
  }

  lemma {:induction false} UnsentMembers(logs: seq<ReminderLog>, eventId: nat, times: seq<int>)
    requires Ascending(times)
    ensures Ascending(Unsent(logs, eventId, times))
    ensures forall t :: t in Unsent(logs, eventId, times) <==> t in times && !SentAt(logs, eventId, t)
  {
    if times != [] {
      UnsentMembers(logs, eventId, times[1..]);
      assert times == [times[0]] + times[1..];
      var rest := Unsent(logs, eventId, times[1..]);
      forall k | 0 <= k < |rest|
        ensures times[0] < rest[k]
      {
        assert rest[k] in rest && rest[k] in times[1..];
      }
    }
  }

  /** The instants regeneration plans for: wanted by the policy and not logged yet. */
  ghost function Planned(db: Db, ws: Settings, ev: Event, now: int): seq<int>
    requires Valid(ev.policy) && Schedule(ev.policy, now, ev.startsAt, ws.zone).Ok?
  {
    Unsent(db.logs, ev.id, Schedule(ev.policy, now, ev.startsAt, ws.zone).value)
  }

  lemma PlannedIsWanted(db: Db, ws: Settings, ev: Event, now: int)
    requires Valid(ev.policy) && Schedule(ev.policy, now, ev.startsAt, ws.zone).Ok?
    ensures Ascending(Planned(db, ws, ev, now))
    ensures forall t :: t in Planned(db, ws, ev, now) <==>
              Wanted(ev.policy, now, ev.startsAt, ws.zone, t) && !SentAt(db.logs, ev.id, t)
  {
    ScheduleIsWanted(ev.policy, now, ev.startsAt, ws.zone);
    UnsentMembers(db.logs, ev.id, Schedule(ev.policy, now, ev.startsAt, ws.zone).value);
  }

  /** With a clock that never runs backwards nothing planned has been sent: the planned
      instants are all the wanted ones. */
  lemma PlannedIsSchedule(db: Db, ws: Settings, ev: Event, now: int)
    requires Inv(db, now) && Valid(ev.policy) && Schedule(ev.policy, now, ev.startsAt, ws.zone).Ok?
    ensures Planned(db, ws, ev, now) == Schedule(ev.policy, now, ev.startsAt, ws.zone).value
  {
    ScheduleIsWanted(ev.policy, now, ev.startsAt, ws.zone);
    var times := Schedule(ev.policy, now, ev.startsAt, ws.zone).value;
    assert forall k :: 0 <= k < |times| ==> times[k] in times;
    AllUnsent(db, now, ev.id, times);
  }

  lemma {:induction false} AllUnsent(db: Db, now: int, eventId: nat, times: seq<int>)
    requires Inv(db, now) && forall k :: 0 <= k < |times| ==> times[k] > now
    ensures Unsent(db.logs, eventId, times) == times
  {
    if times != [] {
      NothingPlannedWasSent(db, now, eventId, times[0]);
      AllUnsent(db, now, eventId, times[1..]);
    }
  }

  /** The loop over the schedule, with the numbers used so far. */
  lemma RegenerationLoops(db: Db, ws: Settings, ev: Event, now: int)
    requires ev.IsOpen() && ScheduleReminders(db, ws, ev, now).1.Ok?
    ensures Valid(ev.policy) && Schedule(ev.policy, now, ev.startsAt, ws.zone).Ok?
    ensures ScheduleReminders(db, ws, ev, now).0 ==
            EnqueueReminders(CancelJobs(db, ev.id, [Reminder], now), ev.id, HighestSequence(db.jobs, ev.id) + 1,
                             Schedule(ev.policy, now, ev.startsAt, ws.zone).value, now)
  {
    CancelKeepsHighest(db.jobs, ev.id, now);
  }

  /** The policy can be planned: it is valid and asks for no more reminders than the limit. */
  ghost predicate Plannable(policy: Policy, now: int, startsAt: int, zone: int) {
    Valid(policy) && |WantedSet(policy, now, startsAt, zone)| <= 30
  }

  /** When regeneration succeeds: always for a closed event, and for an open one exactly when
      its policy can be planned. Otherwise the input is refused, after the cancel. */
  lemma RegenerationSucceedsIff(db: Db, ws: Settings, ev: Event, now: int)
    ensures var (db', r) := ScheduleReminders(db, ws, ev, now);
      && r == (if ev.status != Open || Plannable(ev.policy, now, ev.startsAt, ws.zone) then Ok(()) else Err(Validation))
      && (r.Err? || ev.status != Open ==> db' == db.(jobs := CancelByEvent(db.jobs, ev.id, [Reminder], now)))
  {
    if Valid(ev.policy) {
      ScheduleIsWanted(ev.policy, now, ev.startsAt, ws.zone);
    }
  }

  /** An event that wants no reminders is planned without any. */
  lemma NothingWantedSucceeds(db: Db, ws: Settings, ev: Event, now: int)
    requires Valid(ev.policy) && forall t :: !Wanted(ev.policy, now, ev.startsAt, ws.zone, t)
    ensures ScheduleReminders(db, ws, ev, now) == (db.(jobs := CancelByEvent(db.jobs, ev.id, [Reminder], now)), Ok(()))
  {
    ScheduleIsWanted(ev.policy, now, ev.startsAt, ws.zone);
    var wanted := WantedSet(ev.policy, now, ev.startsAt, ws.zone);
    assert wanted == {};
    if ev.status == Open {
      assert Schedule(ev.policy, now, ev.startsAt, ws.zone).value == [];
    }
  }

  /** Regeneration refines the schedule: when it succeeds on an open event, the old pending
      reminders are canceled and one job is added for every planned instant, numbered from
      the first number above all numbers used before. None is swallowed as a duplicate. */
  lemma RegenerationIsExact(db: Db, ws: Settings, ev: Event, now: int)
    requires JobShapes.Inv(db) && ev.id < db.nextId && ev.IsOpen()
    requires ScheduleReminders(db, ws, ev, now).1.Ok?
    ensures Valid(ev.policy) && Schedule(ev.policy, now, ev.startsAt, ws.zone).Ok?
    ensures Below(db.jobs, ev.id, HighestSequence(db.jobs, ev.id) + 1)
    ensures ScheduleReminders(db, ws, ev, now).0.jobs ==
            CancelByEvent(db.jobs, ev.id, [Reminder], now)
            + Numbered(ev.id, HighestSequence(db.jobs, ev.id) + 1, Planned(db, ws, ev, now), db.nextId, now)
  {
    hide ScheduleReminders, EnqueueReminders, Schedule, Valid;
    var db1 := CancelJobs(db, ev.id, [Reminder], now);
    RegenerationLoops(db, ws, ev, now);
    JobShapes.CancelKeepsInv(db, ev.id, [Reminder], now);
    EnqueueIsExact(db1, ev.id, HighestSequence(db.jobs, ev.id) + 1,
                   Schedule(ev.policy, now, ev.startsAt, ws.zone).value, now);
  }

  lemma {:induction false} CancelKeepsHighest(jobs: seq<Job>, eventId: nat, now: int)
    ensures HighestSequence(CancelByEvent(jobs, eventId, [Reminder], now), eventId) == HighestSequence(jobs, eventId)
  {
    if jobs != [] {
      var last := |jobs| - 1;
      CancelKeepsHighest(jobs[..last], eventId, now);
      assert CancelByEvent(jobs, eventId, [Reminder], now)[..last] == CancelByEvent(jobs[..last], eventId, [Reminder], now);
    }
  }

  ghost predicate PendingReminder(job: Job, eventId: nat) {
    job.kind == Reminder && job.eventId == eventId && job.status == Pending
  }

  ghost predicate DueAt(job: Job, eventId: nat, at: int) {
    PendingReminder(job, eventId) && job.runAt == at
  }

  /** The pending reminders are one per instant of `times`, in order, numbered upwards. */
  ghost predicate OnePerInstant(jobs: seq<Job>, eventId: nat, times: seq<int>) {
    DueInTimes(jobs, eventId, times) && EachHasJob(jobs, eventId, times) && InOrder(jobs, eventId)
  }

  ghost predicate DueInTimes(jobs: seq<Job>, eventId: nat, times: seq<int>) {
    forall i :: 0 <= i < |jobs| && PendingReminder(jobs[i], eventId) ==>
      jobs[i].runAt in times && jobs[i].payload.scheduledFor == jobs[i].runAt
  }

  ghost predicate EachHasJob(jobs: seq<Job>, eventId: nat, times: seq<int>) {
    forall k :: 0 <= k < |times| ==> HasJobAt(jobs, eventId, times[k])
  }

  ghost predicate HasJobAt(jobs: seq<Job>, eventId: nat, at: int) {
    exists i :: 0 <= i < |jobs| && DueAt(jobs[i], eventId, at)
  }

  ghost predicate InOrder(jobs: seq<Job>, eventId: nat) {
    forall i, j :: 0 <= i < j < |jobs| && PendingReminder(jobs[i], eventId) && PendingReminder(jobs[j], eventId) ==>
      jobs[i].runAt < jobs[j].runAt && jobs[i].payload.sequence < jobs[j].payload.sequence
  }

  /** From `base` on, one pending reminder per instant, numbered from `first`; none before. */
  ghost predicate Placed(jobs: seq<Job>, eventId: nat, base: nat, first: int, times: seq<int>) {
    && |jobs| == base + |times|
    && (forall i :: 0 <= i < base ==> !PendingReminder(jobs[i], eventId))
    && (forall i :: base <= i < |jobs| ==> PlacedAt(jobs[i], eventId, times[i - base], first + (i - base)))
  }

  ghost predicate PlacedAt(job: Job, eventId: nat, at: int, sequence: int) {
    PendingReminder(job, eventId) && job.runAt == at == job.payload.scheduledFor && job.payload.sequence == sequence
  }

  lemma NumberedIsPlaced(kept: seq<Job>, eventId: nat, first: int, times: seq<int>, id: nat, now: int)
    requires forall k :: 0 <= k < |kept| ==> !PendingReminder(kept[k], eventId)
    ensures Placed(kept + Numbered(eventId, first, times, id, now), eventId, |kept|, first, times)
  {
    NumberedAt(eventId, first, times, id, now);
    var added := Numbered(eventId, first, times, id, now);
    forall i | |kept| <= i < |kept| + |times|
      ensures PlacedAt((kept + added)[i], eventId, times[i - |kept|], first + (i - |kept|))
    {
      assert (kept + added)[i] == added[i - |kept|];
    }
  }

  lemma PlacedIsOnePerInstant(jobs: seq<Job>, eventId: nat, base: nat, first: int, times: seq<int>)
    requires Placed(jobs, eventId, base, first, times) && Ascending(times)
    ensures OnePerInstant(jobs, eventId, times)
  {
    forall k | 0 <= k < |times|
      ensures exists i :: 0 <= i < |jobs| && DueAt(jobs[i], eventId, times[k])
    {
      assert PlacedAt(jobs[base + k], eventId, times[base + k - base], first + (base + k - base));
      assert DueAt(jobs[base + k], eventId, times[k]);
    }
    forall i, j | 0 <= i < j < |jobs| && PendingReminder(jobs[i], eventId) && PendingReminder(jobs[j], eventId)
      ensures jobs[i].runAt < jobs[j].runAt && jobs[i].payload.sequence < jobs[j].payload.sequence
    {
      assert PlacedAt(jobs[i], eventId, times[i - base], first + (i - base));
      assert PlacedAt(jobs[j], eventId, times[j - base], first + (j - base));
    }
  }

  lemma ReplacedIsOnePerInstant(db: Db, eventId: nat, planned: seq<int>, now: int, jobs: seq<Job>)
    requires Ascending(planned)
    requires jobs == CancelByEvent(db.jobs, eventId, [Reminder], now)
                     + Numbered(eventId, HighestSequence(db.jobs, eventId) + 1, planned, db.nextId, now)
    ensures OnePerInstant(jobs, eventId, planned)
  {
    var kept, first := CancelByEvent(db.jobs, eventId, [Reminder], now), HighestSequence(db.jobs, eventId) + 1;
    NumberedIsPlaced(kept, eventId, first, planned, db.nextId, now);
    PlacedIsOnePerInstant(jobs, eventId, |kept|, first, planned);
  }

  /** In particular the pending reminders of the event are due at exactly the planned instants. */
  lemma PendingArePlanned(db: Db, ws: Settings, ev: Event, now: int)
    requires JobShapes.Inv(db) && ev.id < db.nextId && ev.IsOpen()
    requires ScheduleReminders(db, ws, ev, now).1.Ok?
    ensures Valid(ev.policy) && Schedule(ev.policy, now, ev.startsAt, ws.zone).Ok?
    ensures OnePerInstant(ScheduleReminders(db, ws, ev, now).0.jobs, ev.id, Planned(db, ws, ev, now))
  {
    RegenerationIsExact(db, ws, ev, now);
    PlannedIsWanted(db, ws, ev, now);
    ReplacedIsOnePerInstant(db, ev.id, Planned(db, ws, ev, now), now, ScheduleReminders(db, ws, ev, now).0.jobs);
  }

  // ----- at most once

  /** The reminder may still be sent, or has been. */
  ghost predicate Relevant(job: Job, logs: seq<ReminderLog>) {
    job.kind == Reminder && (job.Live() || SentSequence(logs, job.eventId, job.payload.sequence))
  }

  /** A reminder is never due before its instant; once it runs or is logged that instant has come. */
  ghost predicate TimedOk(job: Job, logs: seq<ReminderLog>, now: int) {
    job.kind == Reminder ==>
      && ZERO_TIME < job.payload.scheduledFor <= job.runAt
      && (job.status == Running || SentSequence(logs, job.eventId, job.payload.sequence) ==> job.payload.scheduledFor <= now)
  }

  /** Two reminders of one event for one instant are never both relevant. */
  ghost predicate Apart(a: Job, b: Job, logs: seq<ReminderLog>) {
    Relevant(a, logs) && Relevant(b, logs) && a.eventId == b.eventId ==> a.payload.scheduledFor != b.payload.scheduledFor
  }

  /** An entry belongs to a reminder, and it was not written before its instant. */
  ghost predicate LogOk(log: ReminderLog, jobs: seq<Job>) {
    log.scheduledFor <= log.sentAt && exists i :: 0 <= i < |jobs| && Logs(log, jobs[i])
  }

  ghost predicate Logs(log: ReminderLog, job: Job) {
    && job.kind == Reminder && job.eventId == log.eventId
    && job.payload.sequence == log.sequence && job.payload.scheduledFor == log.scheduledFor
  }

  ghost predicate Inv(db: Db, now: int) {
    && JobShapes.Inv(db) && now > ZERO_TIME
    && (forall i :: 0 <= i < |db.jobs| ==> TimedOk(db.jobs[i], db.logs, now))
    && (forall i, j :: 0 <= i < j < |db.jobs| ==> Apart(db.jobs[i], db.jobs[j], db.logs))
    && (forall l :: 0 <= l < |db.logs| ==> LogOk(db.logs[l], db.jobs))
    && (forall l, m :: 0 <= l < m < |db.logs| ==>
          !(db.logs[l].eventId == db.logs[m].eventId && db.logs[l].sequence == db.logs[m].sequence))
  }

  /** At most one entry per (event, number) and at most one per (event, instant). */
  ghost predicate SentOnce(logs: seq<ReminderLog>) {
    forall l, m :: 0 <= l < m < |logs| && logs[l].eventId == logs[m].eventId ==>
      logs[l].sequence != logs[m].sequence && logs[l].scheduledFor != logs[m].scheduledFor
  }

  lemma InvSentOnce(db: Db, now: int)
    requires Inv(db, now)
    ensures SentOnce(db.logs)
  {
    forall l, m | 0 <= l < m < |db.logs| && db.logs[l].eventId == db.logs[m].eventId
      ensures db.logs[l].scheduledFor != db.logs[m].scheduledFor
    {
      assert LogOk(db.logs[l], db.jobs) && LogOk(db.logs[m], db.jobs);
      var i :| 0 <= i < |db.jobs| && Logs(db.logs[l], db.jobs[i]);
      var j :| 0 <= j < |db.jobs| && Logs(db.logs[m], db.jobs[j]);
      assert Relevant(db.jobs[i], db.logs) && Relevant(db.jobs[j], db.logs);
      assert i != j;
      assert Apart(db.jobs[if i < j then i else j], db.jobs[if i < j then j else i], db.logs);
    }
  }

  /** With a clock that never runs backwards the check against the log by instant never
      fires: a planned instant lies ahead, a logged one does not. */
  lemma NothingPlannedWasSent(db: Db, now: int, eventId: nat, t: int)
    requires Inv(db, now) && t > now
    ensures !SentAt(db.logs, eventId, t)
  {
    forall l | 0 <= l < |db.logs|
      ensures db.logs[l].scheduledFor <= now
    {
      assert LogOk(db.logs[l], db.jobs);
      var i :| 0 <= i < |db.jobs| && Logs(db.logs[l], db.jobs[i]);
      assert TimedOk(db.jobs[i], db.logs, now);
    }
  }

  // ----- primitive steps

  /** A job that is no more relevant than before and as well timed. */
  ghost predicate Calmer(a: Job, b: Job, now: int) {
    && JobShapes.SameIdentity(a, b)
    && (a.kind == Reminder && b.Live() ==> a.Live() && a.payload.scheduledFor <= b.runAt)
    && (a.kind == Reminder && b.status == Running ==> a.payload.scheduledFor <= now)
    && (a.kind == Reminder && !b.Live() ==> b.runAt == a.runAt)
  }

  /** Nothing is logged, reminders only calm down, and no reminder is added. */
  ghost predicate Calm(db: Db, db': Db, now: int) {
    && db'.logs == db.logs && db.nextId <= db'.nextId && |db.jobs| <= |db'.jobs|
    && (forall i :: 0 <= i < |db.jobs| ==> Calmer(db.jobs[i], db'.jobs[i], now))
    && (forall i :: |db.jobs| <= i < |db'.jobs| ==> db'.jobs[i].kind != Reminder)
  }

  lemma CalmKeepsInv(db: Db, db': Db, now: int)
    requires Inv(db, now) && Calm(db, db', now) && JobShapes.Inv(db')
    ensures Inv(db', now)
  {
    forall i | 0 <= i < |db'.jobs|
      ensures TimedOk(db'.jobs[i], db'.logs, now)
    {
      if i < |db.jobs| {
        assert Calmer(db.jobs[i], db'.jobs[i], now) && TimedOk(db.jobs[i], db.logs, now);
      }
    }
    forall i, j | 0 <= i < j < |db'.jobs|
      ensures Apart(db'.jobs[i], db'.jobs[j], db'.logs)
    {
      if j < |db.jobs| {
        assert Calmer(db.jobs[i], db'.jobs[i], now) && Calmer(db.jobs[j], db'.jobs[j], now);
        assert Apart(db.jobs[i], db.jobs[j], db.logs);
      }
    }
    forall l | 0 <= l < |db'.logs|
      ensures LogOk(db'.logs[l], db'.jobs)
    {
      assert LogOk(db.logs[l], db.jobs);
      var i :| 0 <= i < |db.jobs| && Logs(db.logs[l], db.jobs[i]);
      assert Calmer(db.jobs[i], db'.jobs[i], now);
      assert Logs(db'.logs[l], db'.jobs[i]);
    }
  }

  /** Only events, records or the id counter changed. */
  lemma SameJobsKeepInv(db: Db, db': Db, now: int)
    requires Inv(db, now) && db'.jobs == db.jobs && db'.logs == db.logs && db.nextId <= db'.nextId
    ensures Inv(db', now)
  {
    forall i | 0 <= i < |db.jobs|
      ensures Calmer(db.jobs[i], db'.jobs[i], now)
    {
      assert TimedOk(db.jobs[i], db.logs, now);
    }
    CalmKeepsInv(db, db', now);
  }

  lemma EnqueueKeepsInv(db: Db, job: Job, now: int)
    requires Inv(db, now) && job.kind != Reminder
    requires JobShapes.Shaped(job) && job.eventId < db.nextId && job.payload.participationId < db.nextId
    ensures Inv(EnqueueJob(db, job, now), now)
  {
    JobShapes.EnqueueKeepsInv(db, job, now);
    var db' := EnqueueJob(db, job, now);
    forall i | 0 <= i < |db.jobs|
      ensures Calmer(db.jobs[i], db'.jobs[i], now)
    {
      assert TimedOk(db.jobs[i], db.logs, now) && db'.jobs[i] == db.jobs[i];
    }
    CalmKeepsInv(db, db', now);
  }

  lemma CancelKeepsInv(db: Db, eventId: nat, kinds: seq<Kind>, now: int)
    requires Inv(db, now)
    ensures Inv(CancelJobs(db, eventId, kinds, now), now)
  {
    JobShapes.CancelKeepsInv(db, eventId, kinds, now);
    var db' := CancelJobs(db, eventId, kinds, now);
    forall i | 0 <= i < |db.jobs|
      ensures Calmer(db.jobs[i], db'.jobs[i], now)
    {
      assert TimedOk(db.jobs[i], db.logs, now);
    }
    CalmKeepsInv(db, db', now);
  }

  /** A claimed reminder is due, so its instant has come. */
  lemma ClaimKeepsInv(db: Db, lease: int, now: int)
    requires Inv(db, now)
    ensures Inv(db.(jobs := Claim(db.jobs, now, lease).0), now)
  {
    var db' := db.(jobs := Claim(db.jobs, now, lease).0);
    JobShapes.ClaimSame(db.jobs, now, lease);
    JobShapes.SameJobsKeepInv(db, db');
    forall i | 0 <= i < |db.jobs|
      ensures Calmer(db.jobs[i], db'.jobs[i], now)
    {
      assert TimedOk(db.jobs[i], db.logs, now);
    }
    CalmKeepsInv(db, db', now);
  }

  /** A write-back to a reminder only ever hits a running one. */
  lemma WriteBackKeepsInv(db: Db, id: nat, write: Jobs.Write, now: int)
    requires Inv(db, now)
    requires forall i :: 0 <= i < |db.jobs| && db.jobs[i].id == id && db.jobs[i].kind == Reminder ==>
               db.jobs[i].status == Running && !write.Reschedule?
    requires write.Retry? ==> now <= write.runAt
    ensures Inv(db.(jobs := WriteBack(db.jobs, id, write, now)), now)
  {
    var db' := db.(jobs := WriteBack(db.jobs, id, write, now));
    JobShapes.WriteBackSame(db.jobs, id, write, now);
    JobShapes.SameJobsKeepInv(db, db');
    forall i | 0 <= i < |db.jobs|
      ensures Calmer(db.jobs[i], db'.jobs[i], now)
    {
      assert TimedOk(db.jobs[i], db.logs, now);
    }
    CalmKeepsInv(db, db', now);
  }

  // ----- regeneration and sending

  /** Every relevant reminder of the event is for an instant before `t`. */
  ghost predicate Before(db: Db, eventId: nat, t: int) {
    forall i :: 0 <= i < |db.jobs| && Relevant(db.jobs[i], db.logs) && db.jobs[i].eventId == eventId ==>
      db.jobs[i].payload.scheduledFor < t
  }

  lemma FreshReminderKeepsInv(db: Db, eventId: nat, sequence: int, t: int, now: int)
    requires Inv(db, now) && eventId < db.nextId && Below(db.jobs, eventId, sequence) && Before(db, eventId, t) && t > now
    ensures var db' := EnqueueJob(db, NewReminderJob(eventId, sequence, t), now);
            Inv(db', now) && Below(db'.jobs, eventId, sequence + 1) && Before(db', eventId, t + 1)
  {
    var job := NewReminderJob(eventId, sequence, t);
    forall i | 0 <= i < |db.jobs|
      ensures db.jobs[i].key != job.key
    {
      assert JobShapes.Shaped(db.jobs[i]);
    }
    JobShapes.EnqueueKeepsInv(db, job, now);
    var db' := EnqueueJob(db, job, now);
    var stored := Stored(job, db.nextId, now);
    assert db'.jobs == db.jobs + [stored];
    assert !SentSequence(db.logs, eventId, sequence) by {
      NumberNotLogged(db, eventId, sequence, now);
    }
    forall i, j | 0 <= i < j < |db'.jobs|
      ensures Apart(db'.jobs[i], db'.jobs[j], db'.logs)
    {
      assert db'.jobs[i] == db.jobs[i];
      assert j < |db.jobs| ==> Apart(db.jobs[i], db.jobs[j], db.logs);
    }
    forall i | 0 <= i < |db'.jobs|
      ensures TimedOk(db'.jobs[i], db'.logs, now)
    {
      assert i < |db.jobs| ==> TimedOk(db.jobs[i], db.logs, now);
    }
    forall l | 0 <= l < |db'.logs|
      ensures LogOk(db'.logs[l], db'.jobs)
    {
      assert LogOk(db.logs[l], db.jobs);
      var i :| 0 <= i < |db.jobs| && Logs(db.logs[l], db.jobs[i]);
      assert Logs(db'.logs[l], db'.jobs[i]);
    }
  }

  lemma NumberNotLogged(db: Db, eventId: nat, sequence: int, now: int)
    requires Inv(db, now) && Below(db.jobs, eventId, sequence)
    ensures !SentSequence(db.logs, eventId, sequence)
  {
    forall l | 0 <= l < |db.logs|
      ensures !(db.logs[l].eventId == eventId && db.logs[l].sequence == sequence)
    {
      assert LogOk(db.logs[l], db.jobs);
    }
  }

  lemma {:induction false} EnqueueRemindersKeepsInv(db: Db, eventId: nat, sequence: int, times: seq<int>, now: int)
    requires Inv(db, now) && eventId < db.nextId && Below(db.jobs, eventId, sequence) && Ascending(times)
    requires forall k :: 0 <= k < |times| ==> times[k] > now && Before(db, eventId, times[k])
    ensures Inv(EnqueueReminders(db, eventId, sequence, times, now), now)
    decreases |times|
  {
    if times != [] {
      NothingPlannedWasSent(db, now, eventId, times[0]);
      FreshReminderKeepsInv(db, eventId, sequence, times[0], now);
      var db' := EnqueueJob(db, NewReminderJob(eventId, sequence, times[0]), now);
      forall k | 0 <= k < |times[1..]|
        ensures Before(db', eventId, times[1..][k])
      {
        assert Before(db', eventId, times[0] + 1);
      }
      EnqueueRemindersKeepsInv(db', eventId, sequence + 1, times[1..], now);
    }
  }

  /** No reminder of the event that matters lies ahead. */
  ghost predicate NothingAhead(db: Db, eventId: nat, now: int) {
    forall i :: 0 <= i < |db.jobs| && Relevant(db.jobs[i], db.logs) && db.jobs[i].eventId == eventId ==>
      db.jobs[i].payload.scheduledFor <= now
  }

  /** So it is once the pending reminders are canceled. */
  lemma CanceledIsPast(db: Db, eventId: nat, now: int)
    requires Inv(CancelJobs(db, eventId, [Reminder], now), now)
    ensures NothingAhead(CancelJobs(db, eventId, [Reminder], now), eventId, now)
  {
    var db1 := CancelJobs(db, eventId, [Reminder], now);
    forall i | 0 <= i < |db1.jobs| && Relevant(db1.jobs[i], db1.logs) && db1.jobs[i].eventId == eventId
      ensures db1.jobs[i].payload.scheduledFor <= now
    {
      assert TimedOk(db1.jobs[i], db1.logs, now);
    }
  }

  lemma TimesLieAhead(ev: Event, zone: int, now: int)
    requires Times(ev, zone, now).Ok?
    ensures var times := Times(ev, zone, now).value; Ascending(times) && forall k :: 0 <= k < |times| ==> times[k] > now
  {
    ScheduleIsWanted(ev.policy, now, ev.startsAt, zone);
    var times := Times(ev, zone, now).value;
    assert forall k :: 0 <= k < |times| ==> times[k] in times;
  }

  lemma NewTimesKeepInv(db: Db, eventId: nat, times: seq<int>, now: int)
    requires Inv(db, now) && eventId < db.nextId && NothingAhead(db, eventId, now)
    requires Ascending(times) && forall k :: 0 <= k < |times| ==> times[k] > now
    ensures Inv(EnqueueReminders(db, eventId, HighestSequence(db.jobs, eventId) + 1, times, now), now)
  {
    EnqueueRemindersKeepsInv(db, eventId, HighestSequence(db.jobs, eventId) + 1, times, now);
  }

  lemma ScheduleKeepsInv(db: Db, ws: Settings, ev: Event, now: int)
    requires Inv(db, now) && ev.id < db.nextId
    ensures Inv(ScheduleReminders(db, ws, ev, now).0, now)
  {
    CancelKeepsInv(db, ev.id, [Reminder], now);
    CanceledIsPast(db, ev.id, now);
    ScheduledAs(db, CancelJobs(db, ev.id, [Reminder], now), ws, ev, now);
    if Times(ev, ws.zone, now).Ok? {
      TimesLieAhead(ev, ws.zone, now);
      ScheduledKeepsInv(CancelJobs(db, ev.id, [Reminder], now), ScheduleReminders(db, ws, ev, now).0, ev.id,
                        Times(ev, ws.zone, now).value, now);
    }
  }

  /** What regeneration leaves, once the pending reminders are canceled. */
  ghost predicate Scheduled(canceled: Db, db: Db, eventId: nat, times: seq<int>, now: int) {
    || db == canceled
    || db == EnqueueReminders(canceled, eventId, HighestSequence(canceled.jobs, eventId) + 1, times, now)
  }

  lemma ScheduledAs(db: Db, canceled: Db, ws: Settings, ev: Event, now: int)
    requires canceled == CancelJobs(db, ev.id, [Reminder], now)
    ensures match Times(ev, ws.zone, now)
            case Err(_) => ScheduleReminders(db, ws, ev, now).0 == canceled
            case Ok(times) => Scheduled(canceled, ScheduleReminders(db, ws, ev, now).0, ev.id, times, now)
  {
  }

  lemma ScheduledKeepsInv(canceled: Db, db: Db, eventId: nat, times: seq<int>, now: int)
    requires Inv(canceled, now) && NothingAhead(canceled, eventId, now) && eventId < canceled.nextId
    requires Ascending(times) && forall k :: 0 <= k < |times| ==> times[k] > now
    requires Scheduled(canceled, db, eventId, times, now)
    ensures Inv(db, now)
  {
    NewTimesKeepInv(canceled, eventId, times, now);
  }

  /** Sending the reminder that is running logs its own number and instant. */
  lemma SendKeepsInv(s: State, i: nat, now: int)
    requires Inv(s.db, now) && i < |s.db.jobs| && s.db.jobs[i].kind == Reminder && s.db.jobs[i].status == Running
    ensures var p := s.db.jobs[i].payload;
            Inv(Send(s, p.eventId, p.sequence, p.scheduledFor, now).0.db, now)
  {
    var job := s.db.jobs[i];
    var p := job.payload;
    assert JobShapes.Shaped(job) && TimedOk(job, s.db.logs, now);
    var db' := Send(s, p.eventId, p.sequence, p.scheduledFor, now).0.db;
    if db'.logs != s.db.logs {
      var log := ReminderLog(s.db.nextId, p.eventId, p.sequence, p.scheduledFor, now);
      assert db'.logs == s.db.logs + [log] && Logs(log, job);
      LoggedNumbers(s.db.logs, log);
      forall k | 0 <= k < |db'.jobs|
        ensures TimedOk(db'.jobs[k], db'.logs, now)
        ensures Relevant(db'.jobs[k], db'.logs) ==> Relevant(s.db.jobs[k], s.db.logs)
      {
        assert TimedOk(s.db.jobs[k], s.db.logs, now) && JobShapes.Shaped(s.db.jobs[k]);
      }
      forall a, b | 0 <= a < b < |db'.jobs|
        ensures Apart(db'.jobs[a], db'.jobs[b], db'.logs)
      {
        assert Apart(s.db.jobs[a], s.db.jobs[b], s.db.logs);
      }
      forall l | 0 <= l < |db'.logs|
        ensures LogOk(db'.logs[l], db'.jobs)
      {
        assert l < |s.db.logs| ==> LogOk(s.db.logs[l], s.db.jobs);
      }
    } else {
      SameJobsKeepInv(s.db, db', now);
    }
  }

  lemma LoggedNumbers(logs: seq<ReminderLog>, log: ReminderLog)
    ensures forall e: nat, q :: SentSequence(logs + [log], e, q) <==>
              SentSequence(logs, e, q) || (log.eventId == e && log.sequence == q)
  {
    var logs' := logs + [log];
    forall e: nat, q
      ensures SentSequence(logs', e, q) <==> SentSequence(logs, e, q) || (log.eventId == e && log.sequence == q)
    {
      if SentSequence(logs, e, q) {
        var i :| 0 <= i < |logs| && logs[i].eventId == e && logs[i].sequence == q;
        assert logs'[i] == logs[i];
      }
      assert logs'[|logs|] == log;
    }
  }

  // ----- use cases

  lemma UpdateKeepsInv(s: State, eventId: nat, u: EventUpdate, actor: Actor, now: int)
    requires Inv(s.db, now) && Roster.Inv(s)
    ensures Inv(Update(s, eventId, u, actor, now).0.db, now)
  {
    var found := GetEvent(s.db.events, eventId);
    if found.Some? && found.value.workspaceId in s.workspaces {
      assert Roster.EventOk(found.value, s);
      var next := Edited(found.value, u, now);
      var db1 := PutEvent(s.db, eventId, Overwrite(next));
      SameJobsKeepInv(s.db, db1, now);
      ScheduleKeepsInv(db1, s.workspaces[found.value.workspaceId], next, now);
    }
  }

  lemma CloseKeepsInv(s: State, eventId: nat, reason: EndReason, actor: Actor, now: int)
    requires Inv(s.db, now) && Roster.Inv(s)
    ensures Inv(Close(s, eventId, reason, actor, now).0.db, now)
  {
    var found := GetEvent(s.db.events, eventId);
    if found.Some? {
      assert Roster.EventOk(found.value, s);
      var db1 := PutEvent(s.db, eventId, Overwrite(Closed(found.value, CloseStatus(reason), reason, now)));
      SameJobsKeepInv(s.db, db1, now);
      CancelKeepsInv(db1, eventId, CLOSING_KINDS, now);
      EnqueueKeepsInv(CancelJobs(db1, eventId, CLOSING_KINDS, now), NewArchiveJob(eventId, now), now);
    }
  }

  lemma ApplyKeepsInv(s: State, eventId: nat, user: string, action: Action, now: int)
    requires Inv(s.db, now) && Roster.Inv(s) && user != s.chat.bot
    ensures Inv(Apply(s, eventId, user, action, now).0.db, now)
  {
    match OpenEvent(s, eventId) {
      case Err(_) =>
      case Ok((ev, ws)) =>
        var t := DecideTransition(At(s.db.parts, FindUser(s.db.parts, eventId, user)), action);
        if t.addToChannel || t.cancelPeekJob {
          Roster.AddMemberMoves(s, ev, user);
          Roster.PressRunsThrough(s, ev, ws, user, action, t, now);
          PressedKeepsInv(s, ev, Roster.EntryOf(ev, ws, user, t, now), t, now);
        }
    }
  }

  lemma PressedKeepsInv(s: State, ev: Event, entry: Entry, t: Transition, now: int)
    requires Inv(s.db, now) && Roster.Inv(s) && GetEvent(s.db.events, ev.id) == Some(ev)
    ensures var (db, _, after) := UpsertPart(s.db, entry, now); Inv(AfterTransition(db, ev, after, t, now), now)
  {
    assert Roster.EventOk(ev, s);
    var (db, _, after) := UpsertPart(s.db, entry, now);
    var counted := if t.role == Participant then AddCount(db, ev.id, 1, now) else db;
    SameJobsKeepInv(s.db, counted, now);
    CancelKeepsInv(counted, ev.id, [PeekExpire], now);
    var canceled := if t.cancelPeekJob then CancelJobs(counted, ev.id, [PeekExpire], now) else counted;
    if after.expiresAt.Some? {
      EnqueueKeepsInv(canceled, NewPeekExpireJob(ev.id, after.id, after.peekCount, after.expiresAt.value), now);
    }
  }

  lemma DetachKeepsInv(s: State, ev: Event, i: nat, status: Standing, now: int)
    requires Inv(s.db, now) && Roster.Inv(s) && i < |s.db.parts|
    requires GetEvent(s.db.events, ev.id) == Some(ev) && s.db.parts[i].eventId == ev.id
    ensures Inv(Detach(s, ev, s.db.parts[i], status, now).0.db, now)
    ensures Detach(s, ev, s.db.parts[i], status, now).0.db.jobs == s.db.jobs
  {
    var part := s.db.parts[i];
    Roster.SameRecord(s.db.parts, s.db.nextId, s.chat.bot, i);
    Roster.RemoveMemberMoves(s, ev, part.userId);
    Roster.DetachRunsThrough(s, ev, part, status, now);
    SameJobsKeepInv(s.db, Detach(s, ev, part, status, now).0.db, now);
  }

  lemma LeaveKeepsInv(s: State, eventId: nat, user: string, now: int)
    requires Inv(s.db, now) && Roster.Inv(s)
    ensures Inv(Leave(s, eventId, user, now).0.db, now)
  {
    var i := FindUser(s.db.parts, eventId, user);
    if OpenEvent(s, eventId).Ok? && i.Some? {
      DetachKeepsInv(s, OpenEvent(s, eventId).value.0, i.value, Left, now);
    }
  }

  lemma RemoveKeepsInv(s: State, eventId: nat, user: string, online: bool, now: int)
    requires Inv(s.db, now) && Roster.Inv(s)
    ensures Inv(Remove(s, eventId, user, online, now).0.db, now)
  {
    var i := FindUser(s.db.parts, eventId, user);
    if OpenEvent(s, eventId).Ok? && i.Some? {
      DetachKeepsInv(s, OpenEvent(s, eventId).value.0, i.value, Removed, now);
    }
  }

  lemma AbortKeepsInv(db: Db, ev: Event, now: int)
    requires Inv(db, now) && ev.id < db.nextId
    ensures Inv(AbortProvision(db, ev, now), now)
  {
    var db1 := PutEvent(db, ev.id, Overwrite(Closed(ev, CanceledEvent, ProvisionFailed, now)));
    SameJobsKeepInv(db, db1, now);
    EnqueueKeepsInv(db1, NewArchiveJob(ev.id, now), now);
  }

  lemma ProvisionKeepsInv(s: State, input: CreateInput, ws: Settings, ev: Event, now: int)
    requires Inv(s.db, now) && ev.id < s.db.nextId
    ensures Inv(Provision(s, input, ws, ev, now).0.db, now)
  {
    match TryNames(s.chat, [input.name, input.name2, input.name3], [ev.organizer]) {
      case (_, Err(e)) => AbortKeepsInv(s.db, ev, now);
      case (chat, Ok((c, name))) =>
        var ref := ChannelRef(Some(c), name, false);
        var ev1 := ev.(channel := ref);
        var db1 := PutEvent(s.db, ev.id, SetChannel(ref, now));
        SameJobsKeepInv(s.db, db1, now);
        if !input.posts {
          AbortKeepsInv(db1, ev1, now);
        } else {
          ScheduleKeepsInv(db1, ws, ev1, now);
          Roster.ScheduleRemindersFrame(db1, ws, ev1, now);
          EnqueueKeepsInv(ScheduleReminders(db1, ws, ev1, now).0, NewAutoEndJob(ev1.id, ev1.AutoEndAt(ws.autoEndGrace)), now);
        }
    }
  }

  lemma CreateKeepsInv(s: State, input: CreateInput, now: int)
    requires Inv(s.db, now)
    ensures Inv(Create(s, input, now).0.db, now)
  {
    if input.online && input.params.workspaceId in s.workspaces {
      var ws := s.workspaces[input.params.workspaceId];
      var ev := FreshEvent(Params(input, ws), s.db.nextId, now);
      var s1 := Roster.WithEvent(s, ev);
      var s2 := s1.(db := RegisterOrganizer(s1.db, ev, now));
      SameJobsKeepInv(s.db, s2.db, now);
      ProvisionKeepsInv(s2, input, ws, ev.(participantCount := 1), now);
    }
  }

  // ----- worker turns, finished or not

  /** The job, up to status and times; a reminder exactly as claimed. */
  ghost predicate StillThere(jobs: seq<Job>, job: Job) {
    exists i :: 0 <= i < |jobs| && JobShapes.SameIdentity(jobs[i], job) && (job.kind == Reminder ==> jobs[i] == job)
  }

  lemma ClaimedIsThere(db: Db, lease: int, now: int)
    requires Claim(db.jobs, now, lease).1.Some?
    ensures var (jobs, job) := Claim(db.jobs, now, lease); StillThere(jobs, job.value) && job.value.status == Running
  {
    var i := Best(db.jobs, now, |db.jobs|).value;
    assert Claim(db.jobs, now, lease).0[i] == Claim(db.jobs, now, lease).1.value;
  }

  lemma RescheduleKeepsInv(s: State, job: Job, runAt: int, now: int)
    requires Inv(s.db, now) && StillThere(s.db.jobs, job) && job.kind != Reminder
    ensures Inv(RescheduleJob(s, job, runAt, now).0.db, now)
    ensures StillThere(RescheduleJob(s, job, runAt, now).0.db.jobs, job)
  {
    var i :| 0 <= i < |s.db.jobs| && JobShapes.SameIdentity(s.db.jobs[i], job);
    WriteBackKeepsInv(s.db, job.id, Reschedule(runAt), now);
    JobShapes.WriteBackSame(s.db.jobs, job.id, Reschedule(runAt), now);
    assert JobShapes.SameIdentity(WriteBack(s.db.jobs, job.id, Reschedule(runAt), now)[i], job);
  }

  lemma CloseKeepsJob(s: State, eventId: nat, reason: EndReason, actor: Actor, now: int, job: Job)
    requires StillThere(s.db.jobs, job) && job.kind != Reminder
    ensures StillThere(Close(s, eventId, reason, actor, now).0.db.jobs, job)
  {
    var i :| 0 <= i < |s.db.jobs| && JobShapes.SameIdentity(s.db.jobs[i], job);
    assert JobShapes.SameIdentity(Close(s, eventId, reason, actor, now).0.db.jobs[i], job);
  }

  lemma HandlePeekKeepsInv(s: State, job: Job, now: int)
    requires Inv(s.db, now) && Roster.Inv(s) && StillThere(s.db.jobs, job) && job.kind == PeekExpire
    ensures Inv(Handle(s, job, now).0.db, now) && StillThere(Handle(s, job, now).0.db.jobs, job)
  {
    ExpirePeekKeepsInv(s, job.payload.participationId, now);
    match ExpirePeek(s, job.payload.participationId, now) {
      case (_, Err(_)) =>
      case (s1, Ok((part, expired))) =>
        if !expired && part.Some? && part.value.expiresAt.Some? {
          RescheduleKeepsInv(s1, job, part.value.expiresAt.value, now);
        }
    }
  }

  lemma ExpirePeekKeepsInv(s: State, id: nat, now: int)
    requires Inv(s.db, now) && Roster.Inv(s)
    ensures var s' := ExpirePeek(s, id, now).0; Inv(s'.db, now) && s'.db.jobs == s.db.jobs
  {
    var i := FindId(s.db.parts, id);
    if i.Some? && s.db.parts[i.value].IsActive() {
      var ev := GetEvent(s.db.events, s.db.parts[i.value].eventId);
      if ev.Some? {
        DetachKeepsInv(s, ev.value, i.value, Expired, now);
      }
    }
  }

  lemma HandleReminderKeepsInv(s: State, job: Job, now: int)
    requires Inv(s.db, now) && StillThere(s.db.jobs, job) && job.status == Running && job.kind == Reminder
    ensures Inv(Handle(s, job, now).0.db, now) && StillThere(Handle(s, job, now).0.db.jobs, job)
  {
    var i :| 0 <= i < |s.db.jobs| && s.db.jobs[i] == job;
    SendKeepsInv(s, i, now);
  }

  lemma HandleAutoEndKeepsInv(s: State, job: Job, now: int)
    requires Inv(s.db, now) && Roster.Inv(s) && StillThere(s.db.jobs, job) && job.kind == AutoEnd
    ensures Inv(Handle(s, job, now).0.db, now) && StillThere(Handle(s, job, now).0.db.jobs, job)
  {
    var found := GetEvent(s.db.events, job.payload.eventId);
    if found.Some? && found.value.workspaceId in s.workspaces {
      var at := found.value.AutoEndAt(s.workspaces[found.value.workspaceId].autoEndGrace);
      if at > now {
        RescheduleKeepsInv(s, job, at, now);
      } else {
        CloseKeepsInv(s, found.value.id, Auto, Actor("", true), now);
        CloseKeepsJob(s, found.value.id, Auto, Actor("", true), now, job);
      }
    }
  }

  lemma HandleKeepsInv(s: State, job: Job, now: int)
    requires Inv(s.db, now) && Roster.Inv(s) && StillThere(s.db.jobs, job) && job.status == Running
    ensures Inv(Handle(s, job, now).0.db, now) && StillThere(Handle(s, job, now).0.db.jobs, job)
  {
    match job.kind {
      case Reminder => HandleReminderKeepsInv(s, job, now);
      case PeekExpire => HandlePeekKeepsInv(s, job, now);
      case AutoEnd => HandleAutoEndKeepsInv(s, job, now);
      case Archive => SameJobsKeepInv(s.db, ArchiveChannel(s, job.payload.eventId, now).0.db, now);
      case Unknown(_) =>
    }
  }

  /** Whatever the worker writes about its own job. */
  lemma WriteJobKeepsInv(s: State, job: Job, write: Jobs.Write, now: int)
    requires Inv(s.db, now) && StillThere(s.db.jobs, job) && job.status == Running
    requires !write.Reschedule? && (write.Retry? ==> now <= write.runAt)
    ensures Inv(WriteJob(s, job.id, write, now).db, now)
  {
    var i :| 0 <= i < |s.db.jobs| && JobShapes.SameIdentity(s.db.jobs[i], job) && (job.kind == Reminder ==> s.db.jobs[i] == job);
    assert forall k :: 0 <= k < |s.db.jobs| && s.db.jobs[k].id == job.id ==> k == i;
    WriteBackKeepsInv(s.db, job.id, write, now);
  }

  lemma ClaimJobKeepsInv(s: State, lease: int, now: int)
    requires Inv(s.db, now) && Roster.Inv(s)
    ensures Inv(ClaimJob(s, lease, now).0.db, now) && Roster.Inv(ClaimJob(s, lease, now).0)
  {
    ClaimKeepsInv(s.db, lease, now);
    Roster.JobsKeepInv(s, ClaimJob(s, lease, now).0.db.jobs);
  }

  lemma ErrorWriteWaits(e: Error, job: Job, now: int)
    ensures !ErrorWrite(e, job, now).Reschedule? && (ErrorWrite(e, job, now).Retry? ==> now <= ErrorWrite(e, job, now).runAt)
  {
    BackoffMonotone(job.attempts, job.attempts);
  }

  lemma WriteHandledKeepsInv(s: State, job: Job, handled: Handled, now: int)
    requires Inv(s.db, now) && StillThere(s.db.jobs, job) && job.status == Running
    ensures Inv(WriteHandled(s, job, handled, now).db, now)
  {
    match handled {
      case Finished => WriteJobKeepsInv(s, job, Complete, now);
      case WasRescheduled =>
      case HandlerError(e) =>
        ErrorWriteWaits(e, job, now);
        WriteJobKeepsInv(s, job, ErrorWrite(e, job, now), now);
    }
  }

  lemma RunClaimedKeepsInv(s: State, job: Job, now: int)
    requires Inv(s.db, now) && Roster.Inv(s) && StillThere(s.db.jobs, job) && job.status == Running
    ensures Inv(RunClaimed(s, job, now).db, now)
  {
    if job.attempts > job.maxAttempts {
      WriteJobKeepsInv(s, job, Fail("max attempts exceeded"), now);
    } else {
      HandleKeepsInv(s, job, now);
      var (s', handled) := Handle(s, job, now);
      WriteHandledKeepsInv(s', job, handled, now);
    }
  }
}
