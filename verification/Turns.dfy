/** What one turn of a worker leaves behind (run in scheduler/worker.go and the handlers in
    scheduler/handler.go), and that it is a path of the lease protocol. */
module Turns {
  import opened Common
  import opened Jobs
  import opened Participations
  import opened Events
  import opened Manager
  import Edits
  import JobShapes
  import Outcomes
  import Roster

  // ----- the record of the job

  /** Every end of a job is dated, and gives the lease up. */
  function DoneAt(job: Job, now: int): Job {
    job.(status := Done, finishedAt := Some(now), leaseUntil := None, updatedAt := now)
  }

  function FailedAt(job: Job, reason: string, now: int): Job {
    job.(status := Failed, finishedAt := Some(now), leaseUntil := None, lastError := reason, updatedAt := now)
  }

  /** Waiting again, and this claim is not counted. */
  function PutOffTo(job: Job, at: int, now: int): Job {
    job.(status := Pending, runAt := at, leaseUntil := None, attempts := job.attempts - 1, updatedAt := now)
  }

  function WithJob(s: State, i: nat, job: Job): State
    requires i < |s.db.jobs|
  {
    s.(db := s.db.(jobs := s.db.jobs[i := job]))
  }

  /** Nothing else happened. */
  ghost predicate OnlyJob(s: State, s': State, i: nat, job: Job)
    requires i < |s.db.jobs|
  {
    s' == WithJob(s, i, job)
  }

  // ----- what a turn does, kind by kind

  /** A reminder is logged when its event is open, has not started and has not logged the
      number; done it is in any case. */
  ghost predicate ReminderTurn(s: State, s': State, i: nat, now: int)
    requires i < |s.db.jobs|
  {
    var job := s.db.jobs[i];
    var ev := GetEvent(s.db.events, job.eventId);
    var due := ev.Some? && ev.value.status == Open && now < ev.value.startsAt
               && forall k :: 0 <= k < |s.db.logs| ==>
                    !(s.db.logs[k].eventId == job.eventId && s.db.logs[k].sequence == job.payload.sequence);
    && s'.db.events == s.db.events && s'.db.parts == s.db.parts && s'.chat == s.chat && s'.workspaces == s.workspaces
    && s'.db.jobs == s.db.jobs[i := DoneAt(job, now)]
    && if due then
         && |s'.db.logs| == |s.db.logs| + 1 && s.db.logs <= s'.db.logs
         && Outcomes.LogsThis(s'.db.logs[|s.db.logs|], job.eventId, job.payload.sequence, job.payload.scheduledFor, now)
       else s'.db.logs == s.db.logs
  }

  /** A peek that is over is expired if its event is there; one that was extended is looked at
      again when it ends; anything else is no business of the job. */
  ghost predicate PeekTurn(s: State, s': State, i: nat, now: int)
    requires i < |s.db.jobs|
  {
    var job := s.db.jobs[i];
    match At(s.db.parts, FindId(s.db.parts, job.payload.participationId))
    case None => OnlyJob(s, s', i, DoneAt(job, now))
    case Some(part) =>
      if part.status != Active || part.role != Peeker || part.expiresAt == None then OnlyJob(s, s', i, DoneAt(job, now))
      else if now < part.expiresAt.value then OnlyJob(s, s', i, PutOffTo(job, part.expiresAt.value, now))
      else if GetEvent(s.db.events, part.eventId) == None then OnlyJob(s, s', i, DoneAt(job, now))
      else
        && s'.db.jobs == s.db.jobs[i := DoneAt(job, now)]
        && Outcomes.Gone(s, s'.(db := s'.db.(jobs := s.db.jobs)), part.eventId, part.userId, Expired, now)
  }

  /** An open event ends when its end, or its start and the grace, have come; until then the
      job waits for that moment. */
  ghost predicate AutoEndTurn(s: State, s': State, i: nat, now: int)
    requires i < |s.db.jobs|
  {
    var job := s.db.jobs[i];
    match GetEvent(s.db.events, job.eventId)
    case None => OnlyJob(s, s', i, DoneAt(job, now))
    case Some(ev) =>
      if ev.status != Open then OnlyJob(s, s', i, DoneAt(job, now))
      else
        && ev.workspaceId in s.workspaces
        && var at := Edits.EndMoment(ev.startsAt, ev.endsAt, s.workspaces[ev.workspaceId].autoEndGrace);
           if now < at then OnlyJob(s, s', i, PutOffTo(job, at, now))
           else
             && i < |s'.db.jobs| && s'.db.jobs[i] == DoneAt(job, now)
             && Outcomes.ClosedBy(s, WithJob(s', i, job), ev, Auto, now)
  }

  /** A channel that is still live is archived, in the event and at the provider. */
  ghost predicate ArchiveTurn(s: State, s': State, i: nat, now: int)
    requires i < |s.db.jobs|
  {
    var job := s.db.jobs[i];
    var ev := GetEvent(s.db.events, job.eventId);
    if ev.None? || ev.value.channel.id.None? || ev.value.channel.archived then OnlyJob(s, s', i, DoneAt(job, now))
    else
      var c := ev.value.channel.id.value;
      && s'.db.jobs == s.db.jobs[i := DoneAt(job, now)]
      && s'.db.parts == s.db.parts && s'.db.logs == s.db.logs && s'.workspaces == s.workspaces
      && GetEvent(s'.db.events, job.eventId) ==
         Some(ev.value.(channel := ChannelRef(Some(c), ev.value.channel.name, true), updatedAt := now))
      && (forall e: nat :: e != job.eventId ==> GetEvent(s'.db.events, e) == GetEvent(s.db.events, e))
      && c in s.chat.channels
      && s'.chat == s.chat.(channels := s.chat.channels[c := s.chat.channels[c].(archived := true)])
  }

  /** A job that was claimed more often than it may be tried fails without being started. */
  ghost predicate Turn(s: State, s': State, i: nat, now: int)
    requires i < |s.db.jobs|
  {
    var job := s.db.jobs[i];
    if job.attempts > job.maxAttempts then OnlyJob(s, s', i, FailedAt(job, "max attempts exceeded", now))
    else
      match job.kind
      case Reminder => ReminderTurn(s, s', i, now)
      case PeekExpire => PeekTurn(s, s', i, now)
      case AutoEnd => AutoEndTurn(s, s', i, now)
      case Archive => ArchiveTurn(s, s', i, now)
      case Unknown(_) => OnlyJob(s, s', i, FailedAt(job, "permanent", now))
  }

  // ----- the proof, kind by kind

  lemma FoundAt(jobs: seq<Job>, i: nat)
    requires UniqueIds(jobs) && i < |jobs|
    ensures Find(jobs, jobs[i].id) == Some(i)
  {
  }

  /** A write of the own record. */
  lemma OwnWrite(s: State, i: nat, write: Jobs.Write, now: int)
    requires UniqueIds(s.db.jobs) && i < |s.db.jobs|
    ensures WriteJob(s, s.db.jobs[i].id, write, now).db.jobs == s.db.jobs[i := Written(s.db.jobs[i], write, now)]
  {
    FoundAt(s.db.jobs, i);
  }

  lemma ReminderOutcome(s: State, s': State, i: nat, job: Job, now: int)
    requires Roster.Inv(s) && JobShapes.Inv(s.db) && i < |s.db.jobs| && s.db.jobs[i] == job && job.kind == Reminder
    requires var (s1, handled) := Handle(s, job, now); WriteHandled(s1, job, handled, now) == s'
    ensures ReminderTurn(s, s', i, now)
  {
    assert JobShapes.Shaped(job);
    var s1 := Handle(s, job, now).0;
    OwnWrite(s1, i, Complete, now);
    var ev := GetEvent(s.db.events, job.eventId);
    if ev.Some? {
      assert Roster.EventOk(ev.value, s);
    }
  }

  lemma ArchiveOutcome(s: State, s': State, i: nat, job: Job, now: int)
    requires Roster.Inv(s) && JobShapes.Inv(s.db) && i < |s.db.jobs| && s.db.jobs[i] == job && job.kind == Archive
    requires var (s1, handled) := Handle(s, job, now); WriteHandled(s1, job, handled, now) == s'
    ensures ArchiveTurn(s, s', i, now)
  {
    assert JobShapes.Shaped(job);
    var s1 := Handle(s, job, now).0;
    OwnWrite(s1, i, Complete, now);
    var found := GetEvent(s.db.events, job.eventId);
    if found.Some? {
      assert Roster.EventOk(found.value, s);
      Outcomes.OneEventWritten(s.db.events, job.eventId, SetChannel(found.value.channel.(archived := true), now));
    }
  }

  lemma PeekOutcome(s: State, s': State, i: nat, job: Job, now: int)
    requires Roster.Inv(s) && JobShapes.Inv(s.db) && i < |s.db.jobs| && s.db.jobs[i] == job && job.kind == PeekExpire
    requires var (s1, handled) := Handle(s, job, now); WriteHandled(s1, job, handled, now) == s'
    ensures PeekTurn(s, s', i, now)
  {
    var id := job.payload.participationId;
    var s1 := ExpirePeek(s, id, now).0;
    Outcomes.ExpiringMakesGone(s, id, now);
    FoundAt(s.db.jobs, i);
    OwnWrite(s1, i, Complete, now);
  }

  lemma AutoEndOutcome(s: State, s': State, i: nat, job: Job, now: int)
    requires Roster.Inv(s) && JobShapes.Inv(s.db) && i < |s.db.jobs| && s.db.jobs[i] == job && job.kind == AutoEnd
    requires job.status == Running
    requires var (s1, handled) := Handle(s, job, now); WriteHandled(s1, job, handled, now) == s'
    ensures AutoEndTurn(s, s', i, now)
  {
    assert JobShapes.Shaped(job);
    FoundAt(s.db.jobs, i);
    var found := GetEvent(s.db.events, job.eventId);
    if found.Some? && found.value.status == Open {
      var ev := found.value;
      assert Roster.EventOk(ev, s);
      if Edits.EndMoment(ev.startsAt, ev.endsAt, s.workspaces[ev.workspaceId].autoEndGrace) <= now {
        AutoCloses(s, s', i, job, ev, now);
      }
    }
  }

  lemma AutoCloses(s: State, s': State, i: nat, job: Job, ev: Event, now: int)
    requires Roster.Inv(s) && JobShapes.Inv(s.db) && i < |s.db.jobs| && s.db.jobs[i] == job && job.kind == AutoEnd
    requires job.status == Running && job.eventId == ev.id && GetEvent(s.db.events, ev.id) == Some(ev) && ev.status == Open
    requires s' == WriteJob(Close(s, ev.id, Auto, Actor("", true), now).0, job.id, Complete, now)
    ensures i < |s'.db.jobs| && s'.db.jobs[i] == DoneAt(job, now) && Outcomes.ClosedBy(s, WithJob(s', i, job), ev, Auto, now)
  {
    var s1 := Close(s, ev.id, Auto, Actor("", true), now).0;
    Outcomes.ClosingEnds(s, ev.id, Auto, Actor("", true), now);
    CloseLeavesRunning(s, ev.id, now, i);
    assert Find(s1.db.jobs, job.id) == Some(i);
    assert WithJob(s', i, job) == s1 by {
      assert s'.db.jobs[i := job] == s1.db.jobs;
    }
  }

  lemma CloseLeavesRunning(s: State, id: nat, now: int, i: nat)
    requires i < |s.db.jobs| && s.db.jobs[i].status == Running
    ensures var jobs' := Close(s, id, Auto, Actor("", true), now).0.db.jobs;
      && |s.db.jobs| <= |jobs'| && jobs'[i] == s.db.jobs[i]
      && forall k :: 0 <= k < |s.db.jobs| ==> jobs'[k].id == s.db.jobs[k].id
  {
  }

  /** A claimed job does what its kind asks for, once, and unless it was claimed too often. */
  lemma ClaimedTurn(s: State, s': State, i: nat, now: int)
    requires Roster.Inv(s) && JobShapes.Inv(s.db) && i < |s.db.jobs| && s.db.jobs[i].status == Running
    requires RunClaimed(s, s.db.jobs[i], now) == s'
    ensures Turn(s, s', i, now)
  {
    var job := s.db.jobs[i];
    assert JobShapes.Shaped(job);
    if job.attempts > job.maxAttempts {
      OwnWrite(s, i, Fail("max attempts exceeded"), now);
    } else {
      match job.kind {
        case Reminder => ReminderOutcome(s, s', i, job, now);
        case PeekExpire => PeekOutcome(s, s', i, job, now);
        case AutoEnd => AutoEndOutcome(s, s', i, job, now);
        case Archive => ArchiveOutcome(s, s', i, job, now);
      }
    }
  }

  /** A turn takes a due job of least RunAt, the first in store order among equals, under a
      lease of the full length, and does what the job asks for; without a due job it does nothing. */
  lemma TurnOutcome(s: State, s': State, lease: int, now: int)
    requires Roster.Inv(s) && JobShapes.Inv(s.db) && RunJob(s, lease, now) == s'
    ensures if forall k :: 0 <= k < |s.db.jobs| ==> !IsDue(s.db.jobs[k], now) then s' == s
            else exists i :: 0 <= i < |s.db.jobs| && MostUrgent(s.db.jobs, i, now) && Turn(WithClaim(s, i, lease, now), s', i, now)
  {
    ClaimPicksEarliest(s.db.jobs, now, lease);
    if ClaimJob(s, lease, now).1.Some? {
      var i := Picked(s, lease, now);
      TurnOf(s, s', i, lease, now);
    }
  }

  lemma Picked(s: State, lease: int, now: int) returns (i: nat)
    requires ClaimJob(s, lease, now).1.Some?
    ensures i < |s.db.jobs| && MostUrgent(s.db.jobs, i, now)
    ensures ClaimJob(s, lease, now) == (WithClaim(s, i, lease, now), Some(WithClaim(s, i, lease, now).db.jobs[i]))
  {
    i := Best(s.db.jobs, now, |s.db.jobs|).value;
  }

  lemma TurnOf(s: State, s': State, i: nat, lease: int, now: int)
    requires Roster.Inv(s) && JobShapes.Inv(s.db) && i < |s.db.jobs|
    requires var s1 := WithClaim(s, i, lease, now); RunClaimed(s1, s1.db.jobs[i], now) == s'
    ensures Turn(WithClaim(s, i, lease, now), s', i, now)
  {
    var s1 := WithClaim(s, i, lease, now);
    JobShapes.SameJobsKeepInv(s.db, s1.db);
    Roster.JobsKeepInv(s, s1.db.jobs);
    ClaimedTurn(s1, s', i, now);
  }

  /** It waits and its time has come, or its worker let the lease run out. */
  predicate IsDue(job: Job, now: int) {
    || (job.status == Pending && job.runAt <= now)
    || (job.status == Running && job.leaseUntil.Some? && job.leaseUntil.value <= now)
  }

  ghost predicate MostUrgent(jobs: seq<Job>, i: nat, now: int)
    requires i < |jobs|
  {
    && IsDue(jobs[i], now)
    && forall k :: 0 <= k < |jobs| && IsDue(jobs[k], now) ==>
         jobs[i].runAt < jobs[k].runAt || (jobs[i].runAt == jobs[k].runAt && i <= k)
  }

  /** The store with this job claimed. */
  function WithClaim(s: State, i: nat, lease: int, now: int): State
    requires i < |s.db.jobs|
  {
    var job := s.db.jobs[i];
    var claimed := job.(status := Running, leaseUntil := Some(now + lease), attempts := job.attempts + 1, updatedAt := now);
    s.(db := s.db.(jobs := s.db.jobs[i := claimed]))
  }

  /** What the worker writes about a handler's error: what cannot be helped fails, anything
      else waits half a minute, doubled with every attempt, for half an hour at most. */
  lemma ErrorsAreWritten(s: State, i: nat, e: Error, now: int)
    requires UniqueIds(s.db.jobs) && i < |s.db.jobs|
    ensures var job := s.db.jobs[i]; var s' := WriteHandled(s, job, HandlerError(e), now);
      if e == PermanentError || e == Validation then OnlyJob(s, s', i, FailedAt(job, "permanent", now))
      else
        var waits := Min(30 * SECOND * Pow2(if job.attempts < 1 then 0 else job.attempts - 1), 30 * MINUTE);
        OnlyJob(s, s', i, job.(status := Pending, runAt := now + waits, leaseUntil := None, lastError := "retry", updatedAt := now))
  {
    OwnWrite(s, i, ErrorWrite(e, s.db.jobs[i], now), now);
  }
}
