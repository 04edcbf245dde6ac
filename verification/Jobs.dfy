/** Jobs and the persistent queue they live in (domain/job.go and the jobs part of
    memstore/memstore.go). The queue operations are functions on the stored
    sequence; `Store` implements them with the loops of the source. */
module Jobs {
  import opened Common

  datatype Kind = Reminder | PeekExpire | AutoEnd | Archive | Unknown(name: string)

  datatype Status = Pending | Running | Done | Failed | Canceled

  /** The dedupe key, before it is printed. `NoKey` is the empty string. */
  datatype Key =
    | NoKey
    | ReminderKey(event: nat, sequence: int)
    | PeekKey(participation: nat, count: int)
    | AutoEndKey(event: nat)
    | ArchiveKey(event: nat)

  datatype Payload = Payload(eventId: nat, participationId: nat, sequence: int, scheduledFor: int)

  datatype Job = Job(
    id: nat,
    kind: Kind,
    runAt: int,
    key: Key,
    eventId: nat,
    payload: Payload,
    status: Status,
    attempts: int,
    maxAttempts: int,
    leaseUntil: Option<int>,
    lastError: string,
    finishedAt: Option<int>,
    createdAt: int,
    updatedAt: int)
  {
    predicate Terminal() {
      status in {Done, Failed, Canceled}
    }

    predicate Live() {
      status in {Pending, Running}
    }
  }

  const DEFAULT_MAX_ATTEMPTS: int := 5
  const BASE_BACKOFF: int := 30 * SECOND
  const MAX_BACKOFF: int := 30 * MINUTE

  /** The zero `time.Time`: year 1, in nanoseconds from the Unix epoch. */
  const ZERO_TIME: int := -62_135_596_800 * SECOND

  // ----- constructors (NewReminderJob and its siblings)

  function NewJob(kind: Kind, eventId: nat, runAt: int, key: Key, payload: Payload): Job {
    Job(0, kind, runAt, key, eventId, payload, Pending, 0, DEFAULT_MAX_ATTEMPTS, None, "", None, ZERO_TIME, ZERO_TIME)
  }

  function NewReminderJob(eventId: nat, sequence: int, runAt: int): Job {
    NewJob(Reminder, eventId, runAt, ReminderKey(eventId, sequence), Payload(eventId, 0, sequence, runAt))
  }

  function NewPeekExpireJob(eventId: nat, participationId: nat, peekCount: int, runAt: int): Job {
    NewJob(PeekExpire, eventId, runAt, PeekKey(participationId, peekCount),
           Payload(eventId, participationId, 0, ZERO_TIME))
  }

  function NewAutoEndJob(eventId: nat, runAt: int): Job {
    NewJob(AutoEnd, eventId, runAt, AutoEndKey(eventId), Payload(eventId, 0, 0, ZERO_TIME))
  }

  function NewArchiveJob(eventId: nat, runAt: int): Job {
    NewJob(Archive, eventId, runAt, ArchiveKey(eventId), Payload(eventId, 0, 0, ZERO_TIME))
  }

  // ----- backoff

  function Pow2(n: nat): (p: nat)
    ensures p >= 1
  {
    if n == 0 then 1 else 2 * Pow2(n - 1)
  }

  /** The delay the documentation promises: 30s * 2^(attempts-1), capped at 30 minutes. */
  function BackoffSpec(attempts: int): int {
    Min(BASE_BACKOFF * Pow2(if attempts < 1 then 0 else attempts - 1), MAX_BACKOFF)
  }

  lemma {:induction false} Pow2Monotone(m: nat, n: nat)
    requires m <= n
    ensures Pow2(m) <= Pow2(n)
  {
    if m < n {
      Pow2Monotone(m, n - 1);
    }
  }

  method Backoff(attempts: int) returns (d: int)
    ensures d == BackoffSpec(attempts)
  {
    d := BASE_BACKOFF;
    var n := Max(attempts - 1, 0);
    for i := 0 to n
      invariant d == BASE_BACKOFF * Pow2(i)
      invariant d < MAX_BACKOFF
    {
      d := d * 2;
      if d >= MAX_BACKOFF {
        Pow2Monotone(i + 1, n);
        return MAX_BACKOFF;
      }
    }
  }

  /** Waiting times never shrink from one failure to the next and stay between
      30 seconds and 30 minutes. */
  lemma BackoffMonotone(m: int, n: int)
    requires m <= n
    ensures BASE_BACKOFF <= BackoffSpec(m) <= BackoffSpec(n) <= MAX_BACKOFF
  {
    var m' := if m < 1 then 0 else m - 1;
    var n' := if n < 1 then 0 else n - 1;
    Pow2Monotone(m', n');
  }

  // ----- the stored sequence

  /** The id under which a record is stored is unique. */
  ghost predicate UniqueIds(jobs: seq<Job>) {
    forall i, j :: 0 <= i < j < |jobs| ==> jobs[i].id != jobs[j].id
  }

  /** findJob: the first record with this id. */
  function Find(jobs: seq<Job>, id: nat): (r: Option<nat>)
    ensures r.Some? ==> r.value < |jobs| && jobs[r.value].id == id
    ensures r.Some? ==> forall i :: 0 <= i < r.value ==> jobs[i].id != id
    ensures r.None? ==> forall i :: 0 <= i < |jobs| ==> jobs[i].id != id
  {
    FindFrom(jobs, id, 0)
  }

  function FindFrom(jobs: seq<Job>, id: nat, from: nat): (r: Option<nat>)
    requires from <= |jobs|
    ensures r.Some? ==> from <= r.value < |jobs| && jobs[r.value].id == id
    ensures r.Some? ==> forall i :: from <= i < r.value ==> jobs[i].id != id
    ensures r.None? ==> forall i :: from <= i < |jobs| ==> jobs[i].id != id
    decreases |jobs| - from
  {
    if from == |jobs| then None
    else if jobs[from].id == id then Some(from)
    else FindFrom(jobs, id, from + 1)
  }

  /** The queue as a map from id to record. */
  ghost function View(jobs: seq<Job>): map<nat, Job> {
    if jobs == [] then map[]
    else
      var last := |jobs| - 1;
      View(jobs[..last])[jobs[last].id := jobs[last]]
  }

  lemma {:induction false} ViewAt(jobs: seq<Job>, i: nat)
    requires UniqueIds(jobs) && i < |jobs|
    ensures jobs[i].id in View(jobs) && View(jobs)[jobs[i].id] == jobs[i]
  {
    if i < |jobs| - 1 {
      ViewAt(jobs[..|jobs| - 1], i);
    }
  }

  /** Looking an id up in the map is what findJob does on the sequence. */
  lemma {:induction false} ViewFind(jobs: seq<Job>, id: nat)
    requires UniqueIds(jobs)
    ensures id in View(jobs) <==> Find(jobs, id).Some?
    ensures id in View(jobs) ==> View(jobs)[id] == jobs[Find(jobs, id).value]
  {
    if jobs != [] {
      var front := jobs[..|jobs| - 1];
      ViewFind(front, id);
      if Find(jobs, id).Some? {
        ViewAt(jobs, Find(jobs, id).value);
      }
    }
  }

  predicate HasKey(jobs: seq<Job>, key: Key) {
    exists i :: 0 <= i < |jobs| && jobs[i].key == key
  }

  /** Enqueue normalises the record it stores, whatever the caller filled in. */
  function Stored(job: Job, id: nat, now: int): Job {
    job.(id := id, status := Pending, attempts := 0, leaseUntil := None, lastError := "",
         createdAt := now, updatedAt := now,
         maxAttempts := if job.maxAttempts <= 0 then DEFAULT_MAX_ATTEMPTS else job.maxAttempts)
  }

  predicate Duplicate(jobs: seq<Job>, job: Job) {
    job.key != NoKey && HasKey(jobs, job.key)
  }

  /** A rejected duplicate changes nothing; `id` is the next free id. */
  function Enqueue(jobs: seq<Job>, job: Job, id: nat, now: int): seq<Job> {
    if Duplicate(jobs, job) then jobs else jobs + [Stored(job, id, now)]
  }

  predicate Claimable(job: Job, at: int) {
    if job.status == Pending then job.runAt <= at
    else job.status == Running && job.leaseUntil.Some? && job.leaseUntil.value <= at
  }

  /** What the scan of Claim has found among the first `n` records. */
  function Best(jobs: seq<Job>, at: int, n: nat): (r: Option<nat>)
    requires n <= |jobs|
    ensures r.Some? ==> r.value < n && Claimable(jobs[r.value], at)
    ensures r.None? ==> forall i :: 0 <= i < n ==> !Claimable(jobs[i], at)
    ensures r.Some? ==> forall i :: 0 <= i < n && Claimable(jobs[i], at) ==>
                          jobs[r.value].runAt <= jobs[i].runAt
                          && (i < r.value ==> jobs[r.value].runAt < jobs[i].runAt)
  {
    if n == 0 then None
    else
      var before := Best(jobs, at, n - 1);
      if !Claimable(jobs[n - 1], at) then before
      else if before.None? || jobs[n - 1].runAt < jobs[before.value].runAt then Some(n - 1)
      else before
  }

  function Claimed(job: Job, at: int, lease: int): Job {
    job.(status := Running, leaseUntil := Some(at + lease), attempts := job.attempts + 1, updatedAt := at)
  }

  function Claim(jobs: seq<Job>, at: int, lease: int): (r: (seq<Job>, Option<Job>)) {
    match Best(jobs, at, |jobs|)
    case None => (jobs, None)
    case Some(i) =>
      var job := Claimed(jobs[i], at, lease);
      (jobs[i := job], Some(job))
  }

  // ----- write-backs: none of them looks at the status

  function Completed(job: Job, now: int): Job {
    job.(status := Done, finishedAt := Some(now), leaseUntil := None, updatedAt := now)
  }

  function Retried(job: Job, runAt: int, lastError: string, now: int): Job {
    job.(status := Pending, runAt := runAt, lastError := lastError, leaseUntil := None, updatedAt := now)
  }

  function FailedWith(job: Job, lastError: string, now: int): Job {
    job.(status := Failed, finishedAt := Some(now), lastError := lastError, leaseUntil := None, updatedAt := now)
  }

  function Rescheduled(job: Job, runAt: int, now: int): Job {
    job.(status := Pending, runAt := runAt, leaseUntil := None, updatedAt := now, attempts := job.attempts - 1)
  }

  function Extended(job: Job, until: int, now: int): Job {
    job.(leaseUntil := Some(until), updatedAt := now)
  }

  function CanceledAt(job: Job, now: int): Job {
    job.(status := Canceled, finishedAt := Some(now), updatedAt := now)
  }

  /** What a worker or a handler may write back. */
  datatype Write = Complete | Retry(runAt: int, lastError: string) | Fail(lastError: string) | Reschedule(runAt: int)

  function Written(job: Job, write: Write, now: int): Job {
    match write
    case Complete => Completed(job, now)
    case Retry(runAt, lastError) => Retried(job, runAt, lastError, now)
    case Fail(lastError) => FailedWith(job, lastError, now)
    case Reschedule(runAt) => Rescheduled(job, runAt, now)
  }

  /** updateJob: apply the write to the record found under this id. */
  function WriteBack(jobs: seq<Job>, id: nat, write: Write, now: int): seq<Job> {
    match Find(jobs, id)
    case None => jobs
    case Some(i) => jobs[i := Written(jobs[i], write, now)]
  }

  predicate Cancels(job: Job, eventId: nat, kinds: seq<Kind>) {
    job.eventId == eventId && job.status == Pending && (kinds == [] || job.kind in kinds)
  }

  function CancelByEvent(jobs: seq<Job>, eventId: nat, kinds: seq<Kind>, now: int): (r: seq<Job>)
    ensures |r| == |jobs|
    ensures forall i :: 0 <= i < |jobs| ==>
              r[i] == if Cancels(jobs[i], eventId, kinds) then CanceledAt(jobs[i], now) else jobs[i]
  {
    seq(|jobs|, i requires 0 <= i < |jobs| =>
      if Cancels(jobs[i], eventId, kinds) then CanceledAt(jobs[i], now) else jobs[i])
  }

  /** ExtendLease refuses a job that is not running. */
  function ExtendLease(jobs: seq<Job>, id: nat, until: int, now: int): seq<Job> {
    match Find(jobs, id)
    case None => jobs
    case Some(i) => if jobs[i].status == Running then jobs[i := Extended(jobs[i], until, now)] else jobs
  }

  // ----- the same operations on the map view

  lemma {:induction false} ViewSet(jobs: seq<Job>, i: nat, job: Job)
    requires UniqueIds(jobs) && i < |jobs| && jobs[i].id == job.id
    ensures UniqueIds(jobs[i := job])
    ensures job.id in View(jobs) && View(jobs)[job.id] == jobs[i]
    ensures View(jobs[i := job]) == View(jobs)[job.id := job]
  {
    ViewAt(jobs, i);
    var last := |jobs| - 1;
    if i < last {
      ViewSet(jobs[..last], i, job);
      assert jobs[i := job][..last] == jobs[..last][i := job];
    } else {
      assert jobs[i := job][..last] == jobs[..last];
    }
  }

  lemma ViewAppend(jobs: seq<Job>, job: Job)
    requires UniqueIds(jobs) && job.id !in View(jobs)
    ensures UniqueIds(jobs + [job])
    ensures View(jobs + [job]) == View(jobs)[job.id := job]
  {
    ViewFind(jobs, job.id);
    assert (jobs + [job])[..|jobs|] == jobs;
  }

  /** Enqueue refuses a key that is there, and otherwise adds the job as one that was never
      tried, whatever the caller filled in, with five tries if none are given. */
  lemma ViewEnqueue(jobs: seq<Job>, job: Job, id: nat, now: int)
    requires UniqueIds(jobs) && id !in View(jobs)
    ensures UniqueIds(Enqueue(jobs, job, id, now))
    ensures if job.key != NoKey && exists i :: 0 <= i < |jobs| && jobs[i].key == job.key
            then Enqueue(jobs, job, id, now) == jobs
            else View(Enqueue(jobs, job, id, now)) ==
                 View(jobs)[id := job.(id := id, status := Pending, attempts := 0, leaseUntil := None, lastError := "",
                                       maxAttempts := if job.maxAttempts > 0 then job.maxAttempts else 5,
                                       createdAt := now, updatedAt := now)]
  {
    ViewAppend(jobs, Stored(job, id, now));
  }

  lemma {:induction false} ViewCancel(jobs: seq<Job>, eventId: nat, kinds: seq<Kind>, now: int)
    requires UniqueIds(jobs)
    ensures UniqueIds(CancelByEvent(jobs, eventId, kinds, now))
    ensures View(CancelByEvent(jobs, eventId, kinds, now)).Keys == View(jobs).Keys
    ensures forall id :: id in View(jobs) ==>
              var job := View(jobs)[id];
              View(CancelByEvent(jobs, eventId, kinds, now))[id] ==
              if job.eventId == eventId && job.status == Pending && (kinds == [] || job.kind in kinds)
              then job.(status := Canceled, finishedAt := Some(now), updatedAt := now) else job
  {
    if jobs != [] {
      var last := |jobs| - 1;
      ViewCancel(jobs[..last], eventId, kinds, now);
      assert CancelByEvent(jobs, eventId, kinds, now)[..last] == CancelByEvent(jobs[..last], eventId, kinds, now);
    }
  }

  /** updateJob on the map. */
  lemma ViewWrite(jobs: seq<Job>, id: nat, write: Write, now: int)
    requires UniqueIds(jobs)
    ensures UniqueIds(WriteBack(jobs, id, write, now))
    ensures View(WriteBack(jobs, id, write, now)) ==
            if id in View(jobs) then View(jobs)[id := Written(View(jobs)[id], write, now)] else View(jobs)
  {
    ViewFind(jobs, id);
    match Find(jobs, id) {
      case None =>
      case Some(i) => ViewSet(jobs, i, Written(jobs[i], write, now));
    }
  }

  lemma ViewExtend(jobs: seq<Job>, id: nat, until: int, now: int)
    requires UniqueIds(jobs)
    ensures UniqueIds(ExtendLease(jobs, id, until, now))
    ensures View(ExtendLease(jobs, id, until, now)) ==
            if id in View(jobs) && View(jobs)[id].status == Running
            then View(jobs)[id := View(jobs)[id].(leaseUntil := Some(until), updatedAt := now)] else View(jobs)
  {
    ViewFind(jobs, id);
    match Find(jobs, id) {
      case None =>
      case Some(i) => ViewSet(jobs, i, Extended(jobs[i], until, now));
    }
  }

  lemma ViewClaim(jobs: seq<Job>, at: int, lease: int)
    requires UniqueIds(jobs)
    ensures UniqueIds(Claim(jobs, at, lease).0)
    ensures match Claim(jobs, at, lease).1
            case None => View(Claim(jobs, at, lease).0) == View(jobs)
            case Some(job) =>
              && job.id in View(jobs) && Claimable(View(jobs)[job.id], at)
              && job == Claimed(View(jobs)[job.id], at, lease)
              && View(Claim(jobs, at, lease).0) == View(jobs)[job.id := job]
  {
    match Best(jobs, at, |jobs|) {
      case None =>
      case Some(i) => ViewSet(jobs, i, Claimed(jobs[i], at, lease));
    }
  }

  /** Claim takes a claimable job of least RunAt, the first one in store order among
      equals, touches no other record, and reports none exactly when none is claimable. */
  lemma ClaimPicksEarliest(jobs: seq<Job>, at: int, lease: int)
    ensures Claim(jobs, at, lease).1.None? <==> forall i :: 0 <= i < |jobs| ==> !Claimable(jobs[i], at)
    ensures Claim(jobs, at, lease).1.None? ==> Claim(jobs, at, lease).0 == jobs
    ensures Claim(jobs, at, lease).1.Some? ==>
              exists t :: 0 <= t < |jobs| && Claimable(jobs[t], at)
                && Claim(jobs, at, lease) == (jobs[t := Claimed(jobs[t], at, lease)], Some(Claimed(jobs[t], at, lease)))
                && forall i :: 0 <= i < |jobs| && Claimable(jobs[i], at) ==>
                     jobs[t].runAt < jobs[i].runAt || (jobs[t].runAt == jobs[i].runAt && t <= i)
  {
    var best := Best(jobs, at, |jobs|);
    if best.Some? {
      var t := best.value;
      assert 0 <= t < |jobs| && Claimable(jobs[t], at);
    }
  }
}
