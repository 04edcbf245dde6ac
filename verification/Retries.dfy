/** What becomes of a job whose handler always fails retryably, when its workers do not crash:
    it is tried, waits, and is failed on the claim after its last attempt. */
module Retries {
  import opened Common
  import opened Jobs
  import opened LeaseProtocol
  import LeaseGuarantees

  /** The step does not help job `id`: nobody cancels it, its handler only ever fails
      retryably, and no worker holding it dies. */
  ghost predicate Hopeless(w: World, step: Step, id: nat) {
    match step
    case Cancel(eventId, kinds) => id in View(w.jobs) ==> !Cancels(View(w.jobs)[id], eventId, kinds)
    case HandlerReschedules(x, _) => x in w.execs && w.execs[x].Holds() ==> w.execs[x].phase.job.id != id
    case HandlerReturns(x, outcome) => x in w.execs && w.execs[x].Holds() && w.execs[x].phase.job.id == id ==> outcome.Retryable?
    case Crash(p) => forall x :: x in w.execs && w.execs[x].process == p && w.execs[x].Holds() ==> w.execs[x].phase.job.id != id
    case _ => true
  }

  ghost predicate HopelessRun(c: Config, ws: seq<World>, id: nat) {
    && |ws| > 0 && Initial(ws[0])
    && forall i :: 0 <= i < |ws| - 1 ==> HopelessStep(c, ws, i, id)
  }

  ghost predicate HopelessStep(c: Config, ws: seq<World>, i: nat, id: nat)
    requires i + 1 < |ws|
  {
    exists step :: Enabled(c, ws[i], step) && Hopeless(ws[i], step, id) && ws[i + 1] == After(c, ws[i], step)
  }

  // ----- the invariant

  ghost predicate HeldBySomeone(execs: map<nat, Exec>, id: nat) {
    exists x :: x in execs && HeldBy(execs[x], id)
  }

  ghost predicate HeldBy(exec: Exec, id: nat) {
    exec.Holds() && exec.phase.job.id == id && (exec.phase.Resolved? ==> exec.phase.outcome.Retryable?)
  }

  ghost predicate Waits(job: Job) {
    match job.status
    case Pending => job.attempts <= job.maxAttempts && (job.attempts > 0 ==> job.runAt == job.updatedAt + BackoffSpec(job.attempts))
    case Running => job.attempts <= job.maxAttempts + 1
    case Failed => job.attempts == job.maxAttempts + 1
    case _ => false
  }

  ghost predicate Doomed(w: World, id: nat) {
    id in View(w.jobs) ==>
      && Waits(View(w.jobs)[id])
      && (View(w.jobs)[id].status == Running ==> HeldBySomeone(w.execs, id))
      && id in w.tallies && w.tallies[id].reschedules == 0
  }

  /** A holder lets go only by writing the result. */
  lemma HolderStays(c: Config, w: World, step: Step, id: nat, x: nat)
    requires Enabled(c, w, step) && Hopeless(w, step, id) && x in w.execs && HeldBy(w.execs[x], id)
    requires !(step.WriteResult? && step.x == x)
    requires step.Begin? && step.x == x ==> w.execs[x].phase.job.attempts <= w.execs[x].phase.job.maxAttempts
    ensures x in After(c, w, step).execs && HeldBy(After(c, w, step).execs[x], id)
  {
  }

  lemma TallyStays(c: Config, w: World, step: Step, id: nat)
    requires Enabled(c, w, step) && Hopeless(w, step, id) && id in w.tallies && id < w.nextId
    ensures id in After(c, w, step).tallies && After(c, w, step).tallies[id].reschedules == w.tallies[id].reschedules
  {
  }

  /** A claim makes its goroutine the holder. */
  lemma ClaimHolds(c: Config, w: World, x: nat, id: nat)
    requires Enabled(c, w, Poll(x)) && TakesJob(c, w, id)
    ensures HeldBySomeone(After(c, w, Poll(x)).execs, id)
  {
    assert HeldBy(After(c, w, Poll(x)).execs[x], id);
  }

  lemma RecordStaysDoomed(c: Config, w: World, step: Step, id: nat)
    requires ValidConfig(c) && Inv(c, w) && Enabled(c, w, step) && Hopeless(w, step, id) && Doomed(w, id) && id in View(w.jobs)
    ensures Waits(RecordAfter(c, w, step, View(w.jobs)[id]))
    ensures RecordAfter(c, w, step, View(w.jobs)[id]).status == Running ==> HeldBySomeone(After(c, w, step).execs, id)
  {
    if View(w.jobs)[id].status == Running {
      var x :| x in w.execs && HeldBy(w.execs[x], id);
      HeldStaysDoomed(c, w, step, id, x);
    } else {
      WaitingStaysDoomed(c, w, step, id);
    }
  }

  /** A running record has one holder, who goes on or writes its failure down. */
  lemma HeldStaysDoomed(c: Config, w: World, step: Step, id: nat, x: nat)
    requires ValidConfig(c) && Inv(c, w) && Enabled(c, w, step) && Hopeless(w, step, id) && Doomed(w, id) && id in View(w.jobs)
    requires View(w.jobs)[id].status == Running && x in w.execs && HeldBy(w.execs[x], id)
    ensures Waits(RecordAfter(c, w, step, View(w.jobs)[id]))
    ensures RecordAfter(c, w, step, View(w.jobs)[id]).status == Running ==> HeldBySomeone(After(c, w, step).execs, id)
  {
    var k := CoreOf(w);
    StepRecord(c, w, step, id);
    assert HolderOk(k, k.execs[x]);
    assert forall y :: y in k.execs && k.execs[y].Holds() && k.execs[y].phase.job.id == id ==> y == x;
    if !(step.WriteResult? && step.x == x) && !(step.Begin? && step.x == x && k.v[id].attempts > k.v[id].maxAttempts) {
      HolderStays(c, w, step, id, x);
    }
  }

  /** A record that does not run is held by nobody, and only a claim can change it. */
  lemma WaitingStaysDoomed(c: Config, w: World, step: Step, id: nat)
    requires ValidConfig(c) && Inv(c, w) && Enabled(c, w, step) && Hopeless(w, step, id) && Doomed(w, id) && id in View(w.jobs)
    requires View(w.jobs)[id].status != Running
    ensures Waits(RecordAfter(c, w, step, View(w.jobs)[id]))
    ensures RecordAfter(c, w, step, View(w.jobs)[id]).status == Running ==> HeldBySomeone(After(c, w, step).execs, id)
  {
    var k := CoreOf(w);
    StepRecord(c, w, step, id);
    forall y | y in k.execs && k.execs[y].Holds()
      ensures k.execs[y].phase.job.id != id
    {
      assert HolderOk(k, k.execs[y]);
    }
    if step.Poll? && TakesJob(c, w, id) {
      ClaimHolds(c, w, step.x, id);
    }
  }

  /** Only enqueueing brings a record into being, and it begins without a claim. */
  lemma EnqueuedIsDoomed(c: Config, w: World, job: Job, id: nat)
    requires id !in View(w.jobs) && UniqueIds(w.jobs) && QueueInv(w)
    ensures Doomed(After(c, w, Enqueue(job)), id)
  {
    if !Duplicate(w.jobs, job) {
      ViewAppend(w.jobs, Stored(job, w.nextId, w.now));
    }
  }

  lemma WriteAddsNothing(jobs: seq<Job>, id: nat, write: Write, now: int, other: nat)
    requires UniqueIds(jobs) && other !in View(jobs)
    ensures other !in View(WriteBack(jobs, id, write, now))
  {
    ViewWrite(jobs, id, write, now);
  }

  lemma WriteStepAddsNothing(c: Config, w: World, step: Step, id: nat)
    requires QueueInv(w) && Enabled(c, w, step) && (step.Begin? || step.HandlerReschedules? || step.WriteResult?)
    requires id !in View(w.jobs)
    ensures id !in View(After(c, w, step).jobs)
  {
    var phase := w.execs[step.x].phase;
    match step {
      case Begin(_) => WriteAddsNothing(w.jobs, phase.job.id, Fail("max attempts exceeded"), w.now, id);
      case HandlerReschedules(_, runAt) => WriteAddsNothing(w.jobs, phase.job.id, Reschedule(runAt), w.now, id);
      case WriteResult(_) => WriteAddsNothing(w.jobs, phase.job.id, ResultOf(phase.job, phase.outcome, w.now), w.now, id);
    }
  }

  lemma StepAddsNothing(c: Config, w: World, step: Step, id: nat)
    requires QueueInv(w) && Enabled(c, w, step) && !step.Enqueue? && id !in View(w.jobs)
    ensures id !in View(After(c, w, step).jobs)
  {
    if step.Begin? || step.HandlerReschedules? || step.WriteResult? {
      WriteStepAddsNothing(c, w, step, id);
    } else if step.Cancel? {
      ViewCancel(w.jobs, step.eventId, step.kinds, w.now);
    } else if step.Poll? {
      ViewClaim(w.jobs, w.now, c.lease);
    } else if step.Heartbeat? {
      ViewExtend(w.jobs, w.execs[step.x].phase.job.id, w.now + c.lease, w.now);
    }
  }

  lemma NewRecordIsDoomed(c: Config, w: World, step: Step, id: nat)
    requires ValidConfig(c) && Inv(c, w) && Enabled(c, w, step) && id !in View(w.jobs)
    ensures Doomed(After(c, w, step), id)
  {
    if step.Enqueue? {
      EnqueuedIsDoomed(c, w, step.job, id);
    } else {
      StepAddsNothing(c, w, step, id);
    }
  }

  lemma StepStaysDoomed(c: Config, w: World, step: Step, id: nat)
    requires ValidConfig(c) && Inv(c, w) && Enabled(c, w, step) && Hopeless(w, step, id) && Doomed(w, id)
    ensures Doomed(After(c, w, step), id)
  {
    if id in View(w.jobs) {
      StepRecord(c, w, step, id);
      RecordStaysDoomed(c, w, step, id);
      TallyStays(c, w, step, id);
    } else {
      NewRecordIsDoomed(c, w, step, id);
    }
  }

  lemma {:induction false} RunStaysDoomed(c: Config, ws: seq<World>, i: nat, id: nat)
    requires ValidConfig(c) && HopelessRun(c, ws, id) && i < |ws|
    ensures Inv(c, ws[i]) && Doomed(ws[i], id)
  {
    if i == 0 {
      LeaseGuarantees.RunKeepsInv(c, [ws[0]], 0);
    } else {
      RunStaysDoomed(c, ws, i - 1, id);
      assert HopelessStep(c, ws, i - 1, id);
      var step :| Enabled(c, ws[i - 1], step) && Hopeless(ws[i - 1], step, id) && ws[i] == After(c, ws[i - 1], step);
      StepKeepsInv(c, ws[i - 1], step);
      StepStaysDoomed(c, ws[i - 1], step, id);
    }
  }

  /** A hopeless job is claimed at most once more than its limit and is then failed: it has
      failed exactly when that last claim is over. Until then, after the n-th claim, it waits
      Backoff(n) from the moment its failure was written down. */
  lemma HopelessJobFails(c: Config, ws: seq<World>, i: nat, id: nat)
    requires ValidConfig(c) && HopelessRun(c, ws, id) && i < |ws| && id in View(ws[i].jobs)
    ensures id in ws[i].tallies
    ensures var job := View(ws[i].jobs)[id]; var t := ws[i].tallies[id];
      && job.status in {Pending, Running, Failed}
      && job.attempts == t.claims <= job.maxAttempts + 1 && t.starts <= job.maxAttempts
      && (job.status == Failed <==> t.claims == job.maxAttempts + 1 && job.status != Running)
      && (job.status == Pending && t.claims > 0 ==> job.runAt == job.updatedAt + BackoffSpec(t.claims))
  {
    RunStaysDoomed(c, ws, i, id);
    assert JobOk(c, ws[i].now, CoreOf(ws[i]).v[id], CoreOf(ws[i]).tallies[id]);
  }
}
