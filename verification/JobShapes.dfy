/** Every stored job was built by one of the constructors, and its dedupe key is its own:
    an event never gets a second auto-end or archive job, nor a reminder a used number. */
module JobShapes {
  import opened Jobs
  import opened Manager

  /** Kind, key and payload agree. */
  ghost predicate Shaped(job: Job) {
    && job.payload.eventId == job.eventId
    && job.maxAttempts >= 1
    && match job.kind
       case Reminder => job.key == ReminderKey(job.eventId, job.payload.sequence)
       case PeekExpire => job.key.PeekKey? && job.key.participation == job.payload.participationId
       case AutoEnd => job.key == AutoEndKey(job.eventId)
       case Archive => job.key == ArchiveKey(job.eventId)
       case Unknown(_) => false
  }

  ghost predicate Inv(db: Db) {
    && (forall i :: 0 <= i < |db.jobs| ==>
          Shaped(db.jobs[i]) && db.jobs[i].id < db.nextId
          && db.jobs[i].eventId < db.nextId && db.jobs[i].payload.participationId < db.nextId)
    && (forall i, j :: 0 <= i < j < |db.jobs| ==>
          db.jobs[i].id != db.jobs[j].id && db.jobs[i].key != db.jobs[j].key)
  }

  /** Same jobs up to status, times and attempts. */
  ghost predicate SameIdentity(a: Job, b: Job) {
    a.id == b.id && a.kind == b.kind && a.key == b.key && a.eventId == b.eventId && a.payload == b.payload
    && a.maxAttempts == b.maxAttempts
  }

  ghost predicate SameJobs(a: seq<Job>, b: seq<Job>) {
    |a| == |b| && forall i :: 0 <= i < |a| ==> SameIdentity(a[i], b[i])
  }

  lemma SameJobsKeepInv(db: Db, db': Db)
    requires Inv(db) && SameJobs(db.jobs, db'.jobs) && db.nextId <= db'.nextId
    ensures Inv(db')
  {
    forall i, j | 0 <= i < j < |db'.jobs|
      ensures db'.jobs[i].id != db'.jobs[j].id && db'.jobs[i].key != db'.jobs[j].key
    {
      assert SameIdentity(db.jobs[i], db'.jobs[i]) && SameIdentity(db.jobs[j], db'.jobs[j]);
    }
  }

  lemma EnqueueKeepsInv(db: Db, job: Job, now: int)
    requires Inv(db) && Shaped(job) && job.eventId < db.nextId && job.payload.participationId < db.nextId
    ensures Inv(EnqueueJob(db, job, now))
  {
    assert job.key != NoKey;
    if !Duplicate(db.jobs, job) {
      var jobs' := EnqueueJob(db, job, now).jobs;
      forall i, j | 0 <= i < j < |jobs'|
        ensures jobs'[i].id != jobs'[j].id && jobs'[i].key != jobs'[j].key
      {
        assert jobs'[i] == db.jobs[i];
      }
    }
  }

  lemma CancelKeepsInv(db: Db, eventId: nat, kinds: seq<Kind>, now: int)
    requires Inv(db)
    ensures Inv(CancelJobs(db, eventId, kinds, now))
  {
    SameJobsKeepInv(db, CancelJobs(db, eventId, kinds, now));
  }

  lemma WriteBackSame(jobs: seq<Job>, id: nat, write: Jobs.Write, now: int)
    ensures SameJobs(jobs, WriteBack(jobs, id, write, now))
  {
  }

  lemma ClaimSame(jobs: seq<Job>, now: int, lease: int)
    ensures SameJobs(jobs, Claim(jobs, now, lease).0)
  {
  }
}
