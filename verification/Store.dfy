/** The repositories (memstore/memstore.go): records in sequences that the methods update in
    place, with the loops of the source. Each method is one critical section. */
module Stores {
  import opened Common
  import opened Jobs
  import opened Sorting
  import opened Participations
  import opened Events
  import opened Manager

  predicate RunsBefore(a: Job, b: Job) {
    a.runAt <= b.runAt
  }

  /** The jobs of an event, in store order. */
  function JobsOf(jobs: seq<Job>, eventId: nat): seq<Job> {
    if jobs == [] then []
    else
      var last := |jobs| - 1;
      JobsOf(jobs[..last], eventId) + if jobs[last].eventId == eventId then [jobs[last]] else []
  }

  class Store {
    var nextId: nat
    var events: seq<Event>
    var parts: seq<Participation>
    var jobs: seq<Job>
    var logs: seq<ReminderLog>

    function Contents(): Db
      reads this
    {
      Db(nextId, events, parts, jobs, logs)
    }

    constructor ()
      ensures Contents() == Db(1, [], [], [], [])
    {
      nextId, events, parts, jobs, logs := 1, [], [], [], [];
    }

    method NewId() returns (id: nat)
      modifies this`nextId
      ensures id == old(nextId) && nextId == id + 1
    {
      id := nextId;
      nextId := nextId + 1;
    }

    // ----- events

    method IndexOfEvent(id: nat) returns (r: Option<nat>)
      ensures r == FindEvent(events, id)
    {
      for i := 0 to |events|
        invariant forall k :: 0 <= k < i ==> events[k].id != id
      {
        if events[i].id == id {
          return Some(i);
        }
      }
      return None;
    }

    method CreateEvent(ev: Event) returns (created: Event)
      modifies this
      ensures created == ev.(id := old(nextId))
      ensures Contents() == old(Contents()).(events := old(events) + [created], nextId := old(nextId) + 1)
    {
      var id := NewId();
      created := ev.(id := id);
      events := events + [created];
    }

    method LoadEvent(id: nat) returns (r: Result<Event, Error>)
      ensures r == match GetEvent(events, id) case None => Err(NotFound) case Some(ev) => Ok(ev)
    {
      var i := IndexOfEvent(id);
      if i.None? {
        return Err(NotFound);
      }
      return Ok(events[i.value]);
    }

    /** The body shared by Update, SetChannel and AddParticipantCount: write the record found. */
    method ChangeEvent(id: nat, write: EventWrite) returns (ok: bool)
      modifies this`events
      ensures ok == GetEvent(old(events), id).Some?
      ensures events == WriteEvent(old(events), id, write)
    {
      var i := IndexOfEvent(id);
      if i.None? {
        return false;
      }
      events := events[i.value := WrittenEvent(events[i.value], write)];
      return true;
    }

    // ----- participations

    method IndexOfUser(eventId: nat, userId: string) returns (r: Option<nat>)
      ensures r == FindUser(parts, eventId, userId)
    {
      for i := 0 to |parts|
        invariant forall k :: 0 <= k < i ==> !(parts[k].eventId == eventId && parts[k].userId == userId)
      {
        if parts[i].eventId == eventId && parts[i].userId == userId {
          return Some(i);
        }
      }
      return None;
    }

    method IndexOfPart(id: nat) returns (r: Option<nat>)
      ensures r == FindId(parts, id)
    {
      for i := 0 to |parts|
        invariant forall k :: 0 <= k < i ==> parts[k].id != id
      {
        if parts[i].id == id {
          return Some(i);
        }
      }
      return None;
    }

    method UpsertParticipation(entry: Entry, now: int) returns (before: Option<Participation>, after: Participation)
      modifies this
      ensures (Contents(), before, after) == UpsertPart(old(Contents()), entry, now)
    {
      var found := IndexOfUser(entry.eventId, entry.userId);
      if found.None? {
        var id := NewId();
        after := Created(entry, id, now);
        parts := parts + [after];
        return None, after;
      }
      var stored := parts[found.value];
      before := Some(stored);
      var keepsParticipant := stored.role == Participant && stored.status == Active;
      stored := stored.(status := Active, updatedAt := now);
      if !keepsParticipant {
        stored := stored.(role := entry.role, expiresAt := entry.expiresAt,
                          peekCount := stored.peekCount + PeekIncrement(entry.role));
      }
      parts := parts[found.value := stored];
      after := stored;
    }

    method ChangeStatus(id: nat, status: Standing, now: int) returns (ok: bool)
      modifies this`parts
      ensures ok == FindId(old(parts), id).Some?
      ensures parts == SetStatus(old(parts), id, status, now)
    {
      var i := IndexOfPart(id);
      if i.None? {
        return false;
      }
      var part := parts[i.value].(status := status, updatedAt := now);
      if status != Active {
        part := part.(expiresAt := None);
      }
      parts := parts[i.value := part];
      return true;
    }

    method CountPresent(eventId: nat, role: Role) returns (n: nat)
      ensures n == CountActive(parts, eventId, role)
    {
      n := 0;
      for i := 0 to |parts|
        invariant n == CountActive(parts[..i], eventId, role)
      {
        assert parts[..i + 1][..i] == parts[..i];
        if parts[i].eventId == eventId && parts[i].status == Active && parts[i].role == role {
          n := n + 1;
        }
      }
      assert parts[..|parts|] == parts;
    }

    // ----- jobs

    method IndexOfJob(id: nat) returns (r: Option<nat>)
      ensures r == Find(jobs, id)
    {
      for i := 0 to |jobs|
        invariant forall k :: 0 <= k < i ==> jobs[k].id != id
      {
        if jobs[i].id == id {
          return Some(i);
        }
      }
      return None;
    }

    method EnqueueIfNew(job: Job, now: int) returns (r: Result<Job, Error>)
      modifies this
      ensures r.Err? <==> Duplicate(old(jobs), job)
      ensures r.Ok? ==> r.value == Stored(job, old(nextId), now)
      ensures Contents() == EnqueueJob(old(Contents()), job, now)
    {
      if job.key != NoKey {
        for i := 0 to |jobs|
          invariant forall k :: 0 <= k < i ==> jobs[k].key != job.key
        {
          if jobs[i].key == job.key {
            return Err(AlreadyExists);
          }
        }
      }
      var id := NewId();
      var created := Stored(job, id, now);
      jobs := jobs + [created];
      return Ok(created);
    }

    /** One pass over the queue: the first of the claimable jobs that are due earliest. */
    method ClaimNext(now: int, lease: int) returns (r: Option<Job>)
      modifies this`jobs
      ensures (jobs, r) == Claim(old(jobs), now, lease)
    {
      var target: Option<nat> := None;
      for i := 0 to |jobs|
        invariant target == Best(jobs, now, i)
      {
        if Claimable(jobs[i], now) {
          if target.None? || jobs[i].runAt < jobs[target.value].runAt {
            target := Some(i);
          }
        }
      }
      if target.None? {
        return None;
      }
      var job := Claimed(jobs[target.value], now, lease);
      jobs := jobs[target.value := job];
      return Some(job);
    }

    /** updateJob: the status is not looked at. */
    method UpdateJob(id: nat, apply: Job -> Job) returns (ok: bool)
      modifies this`jobs
      ensures ok == Find(old(jobs), id).Some?
      ensures jobs == if ok then old(jobs)[Find(old(jobs), id).value := apply(old(jobs)[Find(old(jobs), id).value])] else old(jobs)
    {
      var i := IndexOfJob(id);
      if i.None? {
        return false;
      }
      jobs := jobs[i.value := apply(jobs[i.value])];
      return true;
    }

    method CompleteJob(id: nat, now: int) returns (ok: bool)
      modifies this`jobs
      ensures ok == Find(old(jobs), id).Some? && jobs == WriteBack(old(jobs), id, Complete, now)
    {
      ok := UpdateJob(id, (job: Job) => job.(status := Done, finishedAt := Some(now), leaseUntil := None, updatedAt := now));
    }

    method RetryJob(id: nat, runAt: int, lastError: string, now: int) returns (ok: bool)
      modifies this`jobs
      ensures ok == Find(old(jobs), id).Some? && jobs == WriteBack(old(jobs), id, Retry(runAt, lastError), now)
    {
      ok := UpdateJob(id, (job: Job) =>
        job.(status := Pending, runAt := runAt, lastError := lastError, leaseUntil := None, updatedAt := now));
    }

    method FailJob(id: nat, lastError: string, now: int) returns (ok: bool)
      modifies this`jobs
      ensures ok == Find(old(jobs), id).Some? && jobs == WriteBack(old(jobs), id, Fail(lastError), now)
    {
      ok := UpdateJob(id, (job: Job) =>
        job.(status := Failed, finishedAt := Some(now), lastError := lastError, leaseUntil := None, updatedAt := now));
    }

    method Postpone(id: nat, runAt: int, now: int) returns (ok: bool)
      modifies this`jobs
      ensures ok == Find(old(jobs), id).Some? && jobs == WriteBack(old(jobs), id, Reschedule(runAt), now)
    {
      ok := UpdateJob(id, (job: Job) =>
        job.(status := Pending, runAt := runAt, leaseUntil := None, updatedAt := now, attempts := job.attempts - 1));
    }

    method ExtendJobLease(id: nat, until: int, now: int) returns (ok: bool)
      modifies this`jobs
      ensures ok <==> Find(old(jobs), id).Some? && old(jobs)[Find(old(jobs), id).value].status == Running
      ensures jobs == ExtendLease(old(jobs), id, until, now)
    {
      var i := IndexOfJob(id);
      if i.None? || jobs[i.value].status != Running {
        return false;
      }
      jobs := jobs[i.value := jobs[i.value].(leaseUntil := Some(until), updatedAt := now)];
      return true;
    }

    method CancelPending(eventId: nat, kinds: seq<Kind>, now: int) returns (canceled: nat)
      modifies this`jobs
      ensures jobs == CancelByEvent(old(jobs), eventId, kinds, now)
      ensures canceled == |set i | 0 <= i < |old(jobs)| && Cancels(old(jobs)[i], eventId, kinds)|
    {
      canceled := 0;
      ghost var hit: set<nat> := {};
      for i := 0 to |jobs|
        invariant |jobs| == |old(jobs)|
        invariant forall k :: 0 <= k < |jobs| ==>
                    jobs[k] == if k < i && Cancels(old(jobs)[k], eventId, kinds) then CanceledAt(old(jobs)[k], now) else old(jobs)[k]
        invariant hit == (set k: nat | k < i && Cancels(old(jobs)[k], eventId, kinds)) && canceled == |hit|
      {
        var job := jobs[i];
        if job.eventId != eventId || job.status != Pending {
          continue;
        }
        if |kinds| > 0 && job.kind !in kinds {
          continue;
        }
        jobs := jobs[i := job.(status := Canceled, finishedAt := Some(now), updatedAt := now)];
        hit := hit + {i};
        canceled := canceled + 1;
      }
      assert hit == set i | 0 <= i < |old(jobs)| && Cancels(old(jobs)[i], eventId, kinds);
    }

    /** The jobs of an event, sorted by when they are due. */
    method ListJobs(eventId: nat) returns (out: seq<Job>)
      ensures out == Sort(JobsOf(jobs, eventId), RunsBefore)
    {
      out := [];
      for i := 0 to |jobs|
        invariant out == JobsOf(jobs[..i], eventId)
      {
        assert jobs[..i + 1][..i] == jobs[..i];
        if jobs[i].eventId != eventId {
          continue;
        }
        out := out + [jobs[i]];
      }
      assert jobs[..|jobs|] == jobs;
      out := Sort(out, RunsBefore);
    }

    // ----- the reminder log

    method AppendLog(log: ReminderLog)
      modifies this
      ensures Contents() == old(Contents()).(logs := old(logs) + [log.(id := old(nextId))], nextId := old(nextId) + 1)
    {
      var id := NewId();
      logs := logs + [log.(id := id)];
    }

    method WasSentAt(eventId: nat, at: int) returns (sent: bool)
      ensures sent == SentAt(logs, eventId, at)
    {
      for i := 0 to |logs|
        invariant forall k :: 0 <= k < i ==> !(logs[k].eventId == eventId && logs[k].scheduledFor == at)
      {
        if logs[i].eventId == eventId && logs[i].scheduledFor == at {
          return true;
        }
      }
      return false;
    }

    method WasSentSequence(eventId: nat, sequence: int) returns (sent: bool)
      ensures sent == SentSequence(logs, eventId, sequence)
    {
      for i := 0 to |logs|
        invariant forall k :: 0 <= k < i ==> !(logs[k].eventId == eventId && logs[k].sequence == sequence)
      {
        if logs[i].eventId == eventId && logs[i].sequence == sequence {
          return true;
        }
      }
      return false;
    }
  }
}
