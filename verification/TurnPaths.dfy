/** A worker's turn, with its handler, is a path of the lease protocol: what the protocol
    guarantees about claims, starts and write-backs holds of the worker. */
module TurnPaths {
  import opened Common
  import opened Jobs
  import opened Participations
  import opened Events
  import opened Manager
  import opened LeaseProtocol
  import JobShapes
  import Roster
  import Turns

  /** Where these steps lead, if each is enabled in turn. */
  ghost function Followed(c: Config, w: World, steps: seq<Step>): Option<World>
    decreases |steps|
  {
    if steps == [] then Some(w)
    else if Enabled(c, w, steps[0]) then Followed(c, After(c, w, steps[0]), steps[1..])
    else None
  }

  /** A turn of goroutine `x`: it begins, the queue may change under its handler, and its own
      last step reschedules the job or writes the result. */
  predicate IsTurn(steps: seq<Step>, x: nat) {
    && steps != [] && steps[0] == Begin(x)
    && forall k :: 1 <= k < |steps| ==>
         || steps[k].Cancel? || steps[k].Enqueue?
         || ((steps[k].HandlerReschedules? || steps[k].HandlerReturns? || steps[k].WriteResult?) && steps[k].x == x)
  }

  /** The path ends with this queue and without a hold of `x`, and the handler was started
      exactly if the job was not claimed too often. */
  ghost predicate Arrives(c: Config, w: World, steps: seq<Step>, x: nat, job: Job, jobs: seq<Job>) {
    var end := Followed(c, w, steps);
    && IsTurn(steps, x)
    && end.Some? && end.value.jobs == jobs && end.value.now == w.now
    && (x in end.value.execs ==> !end.value.execs[x].Holds())
    && StartsOf(end.value, job.id) == StartsOf(w, job.id) + if job.attempts <= job.maxAttempts then 1 else 0
  }

  function StartsOf(w: World, id: nat): nat {
    if id in w.tallies then w.tallies[id].starts else 0
  }

  // ----- pieces of paths

  /** The handler has started and the queue is as it was. */
  ghost predicate Started(w: World, w1: World, x: nat, job: Job) {
    && x in w1.execs && w1.execs[x].phase == Handling(job)
    && w1.jobs == w.jobs && w1.now == w.now && w1.nextId == w.nextId && job.id in w1.tallies
    && StartsOf(w1, job.id) == StartsOf(w, job.id) + 1
  }

  lemma Begins(c: Config, w: World, x: nat, job: Job)
    requires x in w.execs && w.execs[x].phase == Phase.Claimed(job) && job.id in w.tallies
    requires job.attempts <= job.maxAttempts
    ensures Enabled(c, w, Begin(x)) && Started(w, After(c, w, Begin(x)), x, job)
  {
  }

  lemma Refuses(c: Config, w: World, x: nat, job: Job)
    requires x in w.execs && w.execs[x].phase == Phase.Claimed(job) && job.id in w.tallies
    requires job.attempts > job.maxAttempts
    ensures Arrives(c, w, [Begin(x)], x, job, WriteBack(w.jobs, job.id, Fail("max attempts exceeded"), w.now))
  {
    assert [Begin(x)][1..] == [];
  }

  /** From the start of the handler on. */
  ghost predicate Ends(c: Config, w: World, steps: seq<Step>, x: nat, job: Job, jobs: seq<Job>) {
    var end := Followed(c, w, steps);
    && (forall k :: 0 <= k < |steps| ==>
          || steps[k].Cancel? || steps[k].Enqueue?
          || ((steps[k].HandlerReschedules? || steps[k].HandlerReturns? || steps[k].WriteResult?) && steps[k].x == x))
    && end.Some? && end.value.jobs == jobs && end.value.now == w.now
    && (x in end.value.execs ==> !end.value.execs[x].Holds())
    && StartsOf(end.value, job.id) == StartsOf(w, job.id)
  }

  lemma Completes(c: Config, w: World, x: nat, job: Job)
    requires x in w.execs && w.execs[x].phase == Handling(job)
    ensures Ends(c, w, [HandlerReturns(x, Success), WriteResult(x)], x, job, WriteBack(w.jobs, job.id, Complete, w.now))
  {
    var steps := [HandlerReturns(x, Success), WriteResult(x)];
    assert steps[1..] == [WriteResult(x)] && [WriteResult(x)][1..] == [];
    var w1 := After(c, w, HandlerReturns(x, Success));
    assert Followed(c, w1, [WriteResult(x)]) == Some(After(c, w1, WriteResult(x)));
  }

  lemma PutsOff(c: Config, w: World, x: nat, job: Job, at: int)
    requires x in w.execs && w.execs[x].phase == Handling(job) && job.id in w.tallies
    ensures Ends(c, w, [HandlerReschedules(x, at)], x, job, WriteBack(w.jobs, job.id, Reschedule(at), w.now))
  {
    assert [HandlerReschedules(x, at)][1..] == [];
  }

  /** A change of the queue by the handler comes before the rest. */
  lemma QueueFirst(c: Config, w: World, step: Step, rest: seq<Step>, x: nat, job: Job, jobs: seq<Job>)
    requires step.Cancel? || step.Enqueue?
    requires Ends(c, After(c, w, step), rest, x, job, jobs) && job.id in w.tallies && job.id < w.nextId
    ensures Ends(c, w, [step] + rest, x, job, jobs)
  {
    assert ([step] + rest)[1..] == rest;
  }

  lemma BeginFirst(c: Config, w: World, rest: seq<Step>, x: nat, job: Job, jobs: seq<Job>)
    requires x in w.execs && w.execs[x].phase == Phase.Claimed(job) && job.id in w.tallies
    requires job.attempts <= job.maxAttempts && Ends(c, After(c, w, Begin(x)), rest, x, job, jobs)
    ensures Arrives(c, w, [Begin(x)] + rest, x, job, jobs)
  {
    Begins(c, w, x, job);
    assert ([Begin(x)] + rest)[1..] == rest;
  }

  /** Closing cancels, adds the archive job if there is a channel, and completes. */
  lemma ClosesAndCompletes(c: Config, w: World, x: nat, job: Job, id: nat, archive: bool)
    requires x in w.execs && w.execs[x].phase == Handling(job) && job.id in w.tallies && job.id < w.nextId
    ensures var canceled := CancelByEvent(w.jobs, id, CLOSING_KINDS, w.now);
      var added := if archive then Jobs.Enqueue(canceled, NewArchiveJob(id, w.now), w.nextId, w.now) else canceled;
      exists rest :: Ends(c, w, rest, x, job, WriteBack(added, job.id, Complete, w.now))
  {
    var last := [HandlerReturns(x, Success), WriteResult(x)];
    var cancel, enqueue := Cancel(id, CLOSING_KINDS), Step.Enqueue(NewArchiveJob(id, w.now));
    var w1 := After(c, w, cancel);
    if archive {
      var w2 := After(c, w1, enqueue);
      Completes(c, w2, x, job);
      QueueFirst(c, w1, enqueue, last, x, job, WriteBack(w2.jobs, job.id, Complete, w.now));
      QueueFirst(c, w, cancel, [enqueue] + last, x, job, WriteBack(w2.jobs, job.id, Complete, w.now));
    } else {
      Completes(c, w1, x, job);
      QueueFirst(c, w, cancel, last, x, job, WriteBack(w1.jobs, job.id, Complete, w.now));
    }
  }

  // ----- the turn

  /** The world of the protocol in which the goroutine has just claimed this job. */
  ghost predicate HasClaimed(w: World, x: nat, s: State, i: nat, now: int)
    requires i < |s.db.jobs|
  {
    && w.jobs == s.db.jobs && w.nextId == s.db.nextId && w.now == now
    && x in w.execs && w.execs[x].phase == Phase.Claimed(s.db.jobs[i]) && s.db.jobs[i].id in w.tallies
  }

  /** Every turn of the worker, however it ends, is a path of the protocol to the same queue. */
  lemma TurnIsPath(c: Config, w: World, x: nat, s: State, s': State, i: nat, now: int)
    requires Roster.Inv(s) && JobShapes.Inv(s.db) && i < |s.db.jobs| && s.db.jobs[i].status == Running
    requires HasClaimed(w, x, s, i, now) && RunClaimed(s, s.db.jobs[i], now) == s'
    ensures exists steps :: Arrives(c, w, steps, x, s.db.jobs[i], s'.db.jobs)
  {
    var job := s.db.jobs[i];
    Turns.ClaimedTurn(s, s', i, now);
    Turns.FoundAt(s.db.jobs, i);
    assert JobShapes.Shaped(job);
    if job.attempts > job.maxAttempts {
      Refuses(c, w, x, job);
    } else {
      Begins(c, w, x, job);
      QueueAfter(s, s', i, now);
      var rest := RestOfTurn(c, After(c, w, Begin(x)), x, s, s'.db.jobs, i, now);
      BeginFirst(c, w, rest, x, job, s'.db.jobs);
    }
  }

  /** The three ways a started turn leaves the queue. */
  ghost predicate LeavesQueue(s: State, jobs': seq<Job>, i: nat, now: int)
    requires i < |s.db.jobs|
  {
    var job := s.db.jobs[i];
    || jobs' == WriteBack(s.db.jobs, job.id, Complete, now)
    || (i < |jobs'| && jobs' == WriteBack(s.db.jobs, job.id, Reschedule(jobs'[i].runAt), now))
    || ClosesQueue(s, jobs', job, true, now)
    || ClosesQueue(s, jobs', job, false, now)
  }

  ghost predicate ClosesQueue(s: State, jobs': seq<Job>, job: Job, archive: bool, now: int) {
    var canceled := CancelByEvent(s.db.jobs, job.eventId, CLOSING_KINDS, now);
    var added := if archive then Jobs.Enqueue(canceled, NewArchiveJob(job.eventId, now), s.db.nextId, now) else canceled;
    jobs' == WriteBack(added, job.id, Complete, now)
  }

  lemma QueueAfter(s: State, s': State, i: nat, now: int)
    requires Roster.Inv(s) && JobShapes.Inv(s.db) && i < |s.db.jobs| && s.db.jobs[i].status == Running
    requires s.db.jobs[i].attempts <= s.db.jobs[i].maxAttempts && RunClaimed(s, s.db.jobs[i], now) == s'
    ensures LeavesQueue(s, s'.db.jobs, i, now)
  {
    Turns.ClaimedTurn(s, s', i, now);
    assert JobShapes.Shaped(s.db.jobs[i]);
    if s.db.jobs[i].kind == AutoEnd {
      AutoEndQueue(s, s', i, now);
    } else {
      PlainQueue(s, s', i, now);
    }
  }

  /** Only its own record: done, or waiting again. */
  ghost predicate OwnQueue(jobs: seq<Job>, jobs': seq<Job>, i: nat, now: int)
    requires i < |jobs|
  {
    || jobs' == jobs[i := Turns.DoneAt(jobs[i], now)]
    || (|jobs'| == |jobs| && jobs' == jobs[i := Turns.PutOffTo(jobs[i], jobs'[i].runAt, now)])
  }

  lemma PlainQueue(s: State, s': State, i: nat, now: int)
    requires JobShapes.Inv(s.db) && i < |s.db.jobs| && Turns.Turn(s, s', i, now)
    requires s.db.jobs[i].attempts <= s.db.jobs[i].maxAttempts && s.db.jobs[i].kind in {Reminder, PeekExpire, Archive}
    ensures LeavesQueue(s, s'.db.jobs, i, now)
  {
    match s.db.jobs[i].kind {
      case Reminder => assert Turns.ReminderTurn(s, s', i, now);
      case Archive => assert Turns.ArchiveTurn(s, s', i, now);
      case PeekExpire => PeekQueue(s, s', i, now);
    }
    OwnQueueLeaves(s, s'.db.jobs, i, now);
  }

  lemma PeekQueue(s: State, s': State, i: nat, now: int)
    requires i < |s.db.jobs| && Turns.PeekTurn(s, s', i, now)
    ensures OwnQueue(s.db.jobs, s'.db.jobs, i, now)
  {
  }

  lemma OwnQueueLeaves(s: State, jobs': seq<Job>, i: nat, now: int)
    requires UniqueIds(s.db.jobs) && i < |s.db.jobs| && OwnQueue(s.db.jobs, jobs', i, now)
    ensures LeavesQueue(s, jobs', i, now)
  {
    Turns.FoundAt(s.db.jobs, i);
  }

  lemma AutoEndQueue(s: State, s': State, i: nat, now: int)
    requires Roster.Inv(s) && JobShapes.Inv(s.db) && i < |s.db.jobs| && s.db.jobs[i].kind == AutoEnd
    requires s.db.jobs[i].attempts <= s.db.jobs[i].maxAttempts && RunClaimed(s, s.db.jobs[i], now) == s'
    requires Turns.AutoEndTurn(s, s', i, now)
    ensures LeavesQueue(s, s'.db.jobs, i, now)
  {
    var job := s.db.jobs[i];
    assert JobShapes.Shaped(job);
    Turns.FoundAt(s.db.jobs, i);
    var found := GetEvent(s.db.events, job.eventId);
    if found.Some? && found.value.status == Open {
      var ev := found.value;
      if ev.AutoEndAt(s.workspaces[ev.workspaceId].autoEndGrace) <= now {
        ClosingTurn(s, s', job, ev, now);
      }
    }
  }

  lemma RestOfTurn(c: Config, w: World, x: nat, s: State, jobs': seq<Job>, i: nat, now: int) returns (rest: seq<Step>)
    requires i < |s.db.jobs| && LeavesQueue(s, jobs', i, now)
    requires w.jobs == s.db.jobs && w.nextId == s.db.nextId && w.now == now
    requires s.db.jobs[i].id in w.tallies && s.db.jobs[i].id < w.nextId
    requires x in w.execs && w.execs[x].phase == Handling(s.db.jobs[i])
    ensures Ends(c, w, rest, x, s.db.jobs[i], jobs')
  {
    var job := s.db.jobs[i];
    if jobs' == WriteBack(s.db.jobs, job.id, Complete, now) {
      Completes(c, w, x, job);
      rest := [HandlerReturns(x, Success), WriteResult(x)];
    } else if i < |jobs'| && jobs' == WriteBack(s.db.jobs, job.id, Reschedule(jobs'[i].runAt), now) {
      PutsOff(c, w, x, job, jobs'[i].runAt);
      rest := [HandlerReschedules(x, jobs'[i].runAt)];
    } else {
      ClosesAndCompletes(c, w, x, job, job.eventId, ClosesQueue(s, jobs', job, true, now));
      rest :| Ends(c, w, rest, x, job, jobs');
    }
  }

  /** Only an automatic end changes more of the queue than its own record. */
  lemma ClosingTurn(s: State, s': State, job: Job, ev: Event, now: int)
    requires Roster.Inv(s) && job.kind == AutoEnd && job.payload.eventId == job.eventId == ev.id
    requires GetEvent(s.db.events, ev.id) == Some(ev) && ev.status == Open && job.attempts <= job.maxAttempts
    requires ev.workspaceId in s.workspaces && ev.AutoEndAt(s.workspaces[ev.workspaceId].autoEndGrace) <= now
    requires RunClaimed(s, job, now) == s'
    ensures ClosesQueue(s, s'.db.jobs, job, ev.channel.id.Some?, now)
  {
  }
}
