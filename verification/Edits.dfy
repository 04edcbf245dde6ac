/** What an edit of an event leaves behind, and exactly when it is refused (Update in
    usecase/event.go, Apply in domain/event.go), in terms of what was asked for. */
module Edits {
  import opened Common
  import opened Jobs
  import opened Reminders
  import opened Participations
  import opened Events
  import opened Manager
  import Outcomes
  import ReminderRuns
  import Roster

  // ----- what an edit asks for

  function NewStart(ev: Event, u: EventUpdate): int {
    match u.startsAt
    case None => ev.startsAt
    case Some(at) => at
  }

  /** Clearing the end wins over giving one. */
  function NewEnd(ev: Event, u: EventUpdate): Option<int> {
    if u.clearEndsAt then None else if u.endsAt == None then ev.endsAt else u.endsAt
  }

  function NewPolicy(ev: Event, u: EventUpdate): Policy {
    match u.policy
    case None => ev.policy
    case Some(policy) => policy
  }

  /** When an event is to end by itself. */
  function EndMoment(startsAt: int, endsAt: Option<int>, grace: int): int {
    if endsAt.Some? then endsAt.value else startsAt + grace
  }

  /** The event as asked for: other start, end and policy, and nothing else but the time of
      the update. */
  ghost predicate HasEdit(ev: Event, u: EventUpdate, now: int, stored: Event) {
    && stored.startsAt == NewStart(ev, u) && stored.endsAt == NewEnd(ev, u) && stored.policy == NewPolicy(ev, u)
    && stored.updatedAt == now
    && stored.id == ev.id && stored.workspaceId == ev.workspaceId && stored.organizer == ev.organizer
    && stored.status == ev.status && stored.endedAt == ev.endedAt && stored.endReason == ev.endReason
    && stored.channel == ev.channel && stored.participantCount == ev.participantCount && stored.createdAt == ev.createdAt
  }

  /** The texts pass, the end lies after the start, and a policy that is given is valid. */
  ghost predicate Sound(ev: Event, u: EventUpdate) {
    && u.textValid
    && (NewEnd(ev, u).Some? ==> NewStart(ev, u) < NewEnd(ev, u).value)
    && (u.policy.Some? ==> Valid(u.policy.value))
  }

  /** Why an edit is refused before anything is written, in this order. */
  ghost function Refusal(s: State, id: nat, u: EventUpdate, actor: Actor): Option<Error> {
    match GetEvent(s.db.events, id)
    case None => Some(NotFound)
    case Some(ev) =>
      if !actor.console && actor.userId != ev.organizer then Some(Forbidden)
      else if ev.workspaceId !in s.workspaces then Some(NotFound)
      else if ev.status != Open then Some(EventClosed)
      else if !Sound(ev, u) then Some(Validation)
      else None
  }

  /** The edit is stored, nobody else is touched, and jobs change by regeneration only. */
  ghost predicate EditStored(s: State, s': State, ev: Event, u: EventUpdate, now: int) {
    && (var found := GetEvent(s'.db.events, ev.id); found.Some? && HasEdit(ev, u, now, found.value))
    && (forall e: nat :: e != ev.id ==> GetEvent(s'.db.events, e) == GetEvent(s.db.events, e))
    && s'.db.parts == s.db.parts && s'.db.logs == s.db.logs && s'.chat == s.chat && s'.workspaces == s.workspaces
    && RemindersOnly(s.db.jobs, s'.db.jobs, ev.id)
  }

  /** Only reminders of this event were canceled or added. */
  ghost predicate RemindersOnly(jobs: seq<Job>, jobs': seq<Job>, id: nat) {
    && |jobs| <= |jobs'|
    && (forall k :: 0 <= k < |jobs| && !(jobs[k].kind == Reminder && jobs[k].eventId == id) ==> jobs'[k] == jobs[k])
    && (forall k :: 0 <= k < |jobs| && jobs'[k] != jobs[k] ==> jobs[k].status == Pending && jobs'[k].status == Canceled)
    && (forall k :: |jobs| <= k < |jobs'| ==> NewReminder(jobs'[k], id))
  }

  /** A reminder that waits for the instant it is for. */
  predicate NewReminder(job: Job, id: nat) {
    Outcomes.Waits(job, Reminder, id, job.runAt) && job.payload.scheduledFor == job.runAt
  }

  lemma {:induction false} EnqueuedOnly(db: Db, id: nat, sequence: int, times: seq<int>, now: int)
    ensures var jobs' := EnqueueReminders(db, id, sequence, times, now).jobs;
      && db.jobs <= jobs'
      && forall k :: |db.jobs| <= k < |jobs'| ==> NewReminder(jobs'[k], id)
    decreases |times|
  {
    if times != [] {
      if SentAt(db.logs, id, times[0]) {
        EnqueuedOnly(db, id, sequence, times[1..], now);
      } else {
        EnqueuedOnly(EnqueueJob(db, NewReminderJob(id, sequence, times[0]), now), id, sequence + 1, times[1..], now);
      }
    }
  }

  lemma CanceledOnly(jobs: seq<Job>, jobs': seq<Job>, id: nat, now: int)
    requires CancelByEvent(jobs, id, [Reminder], now) <= jobs'
    requires forall k :: |jobs| <= k < |jobs'| ==> NewReminder(jobs'[k], id)
    ensures RemindersOnly(jobs, jobs', id)
  {
    var canceled := CancelByEvent(jobs, id, [Reminder], now);
    forall k | 0 <= k < |jobs|
      ensures jobs'[k] == canceled[k]
    {
      assert canceled[k] == jobs'[..|canceled|][k];
    }
  }

  lemma RegeneratesOnly(db: Db, ws: Settings, ev: Event, now: int)
    ensures RemindersOnly(db.jobs, ScheduleReminders(db, ws, ev, now).0.jobs, ev.id)
  {
    var canceled := CancelJobs(db, ev.id, [Reminder], now);
    ReminderRuns.ScheduledAs(db, canceled, ws, ev, now);
    if Times(ev, ws.zone, now).Ok? {
      EnqueuedOnly(canceled, ev.id, HighestSequence(canceled.jobs, ev.id) + 1, Times(ev, ws.zone, now).value, now);
    }
    CanceledOnly(db.jobs, ScheduleReminders(db, ws, ev, now).0.jobs, ev.id, now);
  }

  // ----- the outcome

  /** An edit succeeds exactly for an event that exists, somebody who may manage it, a known
      workspace, an open event, a sound edit and a policy that can be planned. The first of
      these that fails names the error. An edit that is only refused for its plan is stored
      all the same; any earlier refusal changes nothing. */
  lemma UpdateOutcome(s: State, s': State, r: Result<(), Error>, id: nat, u: EventUpdate, actor: Actor, now: int)
    requires Update(s, id, u, actor, now) == (s', r)
    ensures match Refusal(s, id, u, actor)
            case Some(e) => r == Err(e) && s' == s
            case None =>
              var ev := GetEvent(s.db.events, id).value; var zone := s.workspaces[ev.workspaceId].zone;
              && EditStored(s, s', ev, u, now)
              && r == if ReminderRuns.Plannable(NewPolicy(ev, u), now, NewStart(ev, u), zone) then Ok(()) else Err(Validation)
  {
    if Refusal(s, id, u, actor).None? {
      AcceptedEdit(s, s', r, GetEvent(s.db.events, id).value, u, actor, now);
    }
  }

  /** An edit that is not refused is stored and planned. */
  lemma UpdateSchedules(s: State, ev: Event, u: EventUpdate, actor: Actor, now: int)
    requires Refusal(s, ev.id, u, actor).None? && GetEvent(s.db.events, ev.id) == Some(ev)
    ensures ev.workspaceId in s.workspaces && ev.status == Open
    ensures var next := Edited(ev, u, now);
      var (db, r) := ScheduleReminders(PutEvent(s.db, ev.id, Overwrite(next)), s.workspaces[ev.workspaceId], next, now);
      Update(s, ev.id, u, actor, now) == (s.(db := db), r)
  {
    hide ScheduleReminders, Valid, PutEvent;
  }

  lemma AcceptedEdit(s: State, s': State, r: Result<(), Error>, ev: Event, u: EventUpdate, actor: Actor, now: int)
    requires Update(s, ev.id, u, actor, now) == (s', r) && Refusal(s, ev.id, u, actor).None?
    requires GetEvent(s.db.events, ev.id) == Some(ev)
    ensures EditStored(s, s', ev, u, now)
    ensures ev.workspaceId in s.workspaces
    ensures r == if ReminderRuns.Plannable(NewPolicy(ev, u), now, NewStart(ev, u), s.workspaces[ev.workspaceId].zone)
                 then Ok(()) else Err(Validation)
  {
    hide Update, ScheduleReminders, Valid, RemindersOnly, WriteEvent, GetEvent, ReminderRuns.Plannable;
    UpdateSchedules(s, ev, u, actor, now);
    var ws, next := s.workspaces[ev.workspaceId], Edited(ev, u, now);
    var db1 := PutEvent(s.db, ev.id, Overwrite(next));
    Outcomes.OneEventWritten(s.db.events, ev.id, Overwrite(next));
    Roster.ScheduleRemindersFrame(db1, ws, next, now);
    ReminderRuns.RegenerationSucceedsIff(db1, ws, next, now);
    RegeneratesOnly(db1, ws, next, now);
  }
}
