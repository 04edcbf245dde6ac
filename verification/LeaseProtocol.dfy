/** The leased claim / heartbeat / retry protocol between the queue and its workers
    (scheduler/worker.go over the jobs part of memstore.go), as a state machine whose
    steps are the atomic store calls. Any number of worker processes share a queue;
    a process may crash between any two steps. */
module LeaseProtocol {
  import opened Common
  import opened Jobs

  /** Settings after `withDefaults`, which makes both positive. */
  datatype Config = Config(lease: int, workers: int)

  predicate ValidConfig(c: Config) {
    c.lease > 0 && c.workers > 0
  }

  datatype Outcome = Success | Permanent(reason: string) | Retryable(cause: string)

  /** One goroutine of `poll`, from the moment it owns a slot. `job` is the copy
      Claim returned. A `Lingering` one has rescheduled its job inside the handler:
      it no longer owns the job, but its heartbeat may still fire. */
  datatype Phase =
    | Polling
    | Claimed(job: Job)
    | Handling(job: Job)
    | Resolved(job: Job, outcome: Outcome)
    | Lingering(job: Job)

  datatype Exec = Exec(process: nat, phase: Phase) {
    predicate Holds() {
      phase.Claimed? || phase.Handling? || phase.Resolved?
    }
  }

  /** History: how often a job was claimed, handed to a handler, and rescheduled. */
  datatype Tally = Tally(claims: nat, starts: nat, reschedules: nat)

  datatype World = World(
    jobs: seq<Job>,
    nextId: nat,
    now: int,
    execs: map<nat, Exec>,
    slots: map<nat, int>,
    tallies: map<nat, Tally>)

  datatype Step =
    | Enqueue(job: Job)
    | Cancel(eventId: nat, kinds: seq<Kind>)
    | Acquire(process: nat, x: nat)
    | Poll(x: nat)
    | Begin(x: nat)
    | Heartbeat(x: nat)
    | HandlerReschedules(x: nat, runAt: int)
    | HandlerReturns(x: nat, outcome: Outcome)
    | WriteResult(x: nat)
    | Finish(x: nat)
    | Crash(process: nat)
    | Tick(to: int)

  function SlotsOf(slots: map<nat, int>, p: nat): int {
    if p in slots then slots[p] else 0
  }

  function Release(w: World, x: nat): World
    requires x in w.execs
  {
    var p := w.execs[x].process;
    w.(execs := w.execs - {x}, slots := w.slots[p := SlotsOf(w.slots, p) - 1])
  }

  function Enter(w: World, x: nat, phase: Phase): World
    requires x in w.execs
  {
    w.(execs := w.execs[x := w.execs[x].(phase := phase)])
  }

  function Plus(t: Tally, d: Tally): Tally {
    Tally(t.claims + d.claims, t.starts + d.starts, t.reschedules + d.reschedules)
  }

  function Count(w: World, id: nat, d: Tally): World {
    if id in w.tallies then w.(tallies := w.tallies[id := Plus(w.tallies[id], d)]) else w
  }

  /** The write-back that `run` chooses for an outcome. */
  function ResultOf(job: Job, outcome: Outcome, now: int): Write {
    match outcome
    case Success => Complete
    case Permanent(reason) => Fail(reason)
    case Retryable(cause) => Retry(now + BackoffSpec(job.attempts), cause)
  }

  /** The lease of the job this goroutine holds reaches beyond `t`. */
  ghost predicate LeaseBeyond(v: map<nat, Job>, exec: Exec, t: int)
    requires exec.Holds()
  {
    var id := exec.phase.job.id;
    id in v && v[id].leaseUntil.Some? && t < v[id].leaseUntil.value
  }

  ghost predicate RenewedBeyond(v: map<nat, Job>, execs: map<nat, Exec>, t: int) {
    forall x :: x in execs && execs[x].Holds() ==> LeaseBeyond(v, execs[x], t)
  }

  /** Only two steps are constrained by more than the phase of the goroutine: a slot is
      taken only when one is free, and time does not reach the lease of a job some live
      worker holds, since workers renew it at half its length. */
  ghost predicate Enabled(c: Config, w: World, step: Step) {
    match step
    case Enqueue(_) => true
    case Cancel(_, _) => true
    case Acquire(p, x) => x !in w.execs && SlotsOf(w.slots, p) < c.workers
    case Poll(x) => x in w.execs && w.execs[x].phase.Polling?
    case Begin(x) => x in w.execs && w.execs[x].phase.Claimed?
    case Heartbeat(x) => x in w.execs && (w.execs[x].phase.Handling? || w.execs[x].phase.Lingering?)
    case HandlerReschedules(x, _) => x in w.execs && w.execs[x].phase.Handling?
    case HandlerReturns(x, _) => x in w.execs && w.execs[x].phase.Handling?
    case WriteResult(x) => x in w.execs && w.execs[x].phase.Resolved?
    case Finish(x) => x in w.execs && w.execs[x].phase.Lingering?
    case Crash(_) => true
    case Tick(t) => w.now <= t && RenewedBeyond(View(w.jobs), w.execs, t)
  }

  ghost function After(c: Config, w: World, step: Step): World
    requires Enabled(c, w, step)
  {
    match step
    case Enqueue(job) =>
      if Duplicate(w.jobs, job) then w
      else w.(jobs := Jobs.Enqueue(w.jobs, job, w.nextId, w.now), nextId := w.nextId + 1,
              tallies := w.tallies[w.nextId := Tally(0, 0, 0)])
    case Cancel(eventId, kinds) => w.(jobs := CancelByEvent(w.jobs, eventId, kinds, w.now))
    case Acquire(p, x) => w.(execs := w.execs[x := Exec(p, Polling)], slots := w.slots[p := SlotsOf(w.slots, p) + 1])
    case Poll(x) =>
      (match Claim(w.jobs, w.now, c.lease)
       case (jobs, Some(job)) =>
         Count(Enter(w.(jobs := jobs), x, Phase.Claimed(job)), job.id, Tally(1, 0, 0))
       case (jobs, None) => Release(w, x))
    case Begin(x) =>
      var job := w.execs[x].phase.job;
      if job.attempts > job.maxAttempts then
        Release(w.(jobs := WriteBack(w.jobs, job.id, Fail("max attempts exceeded"), w.now)), x)
      else
        Count(Enter(w, x, Handling(job)), job.id, Tally(0, 1, 0))
    case Heartbeat(x) => w.(jobs := ExtendLease(w.jobs, w.execs[x].phase.job.id, w.now + c.lease, w.now))
    case HandlerReschedules(x, runAt) =>
      var job := w.execs[x].phase.job;
      Count(Enter(w.(jobs := WriteBack(w.jobs, job.id, Reschedule(runAt), w.now)), x, Lingering(job)),
            job.id, Tally(0, 0, 1))
    case HandlerReturns(x, outcome) => Enter(w, x, Resolved(w.execs[x].phase.job, outcome))
    case WriteResult(x) =>
      var job := w.execs[x].phase.job;
      Release(w.(jobs := WriteBack(w.jobs, job.id, ResultOf(job, w.execs[x].phase.outcome, w.now), w.now)), x)
    case Finish(x) => Release(w, x)
    case Crash(p) =>
      w.(execs := Survivors(w.execs, p), slots := w.slots[p := 0])
    case Tick(t) => w.(now := t)
  }

  ghost predicate Next(c: Config, w: World, w': World) {
    exists step :: Enabled(c, w, step) && w' == After(c, w, step)
  }

  predicate Initial(w: World) {
    w.jobs == [] && w.execs == map[] && w.slots == map[] && w.tallies == map[]
  }

  ghost predicate Run(c: Config, ws: seq<World>) {
    && |ws| > 0
    && Initial(ws[0])
    && forall i :: 0 <= i < |ws| - 1 ==> Linked(c, ws, i)
  }

  ghost predicate Linked(c: Config, ws: seq<World>, i: nat)
    requires i + 1 < |ws|
  {
    Next(c, ws[i], ws[i + 1])
  }

  // ----- the invariant

  /** A lease is recorded exactly while a job runs and never reaches further than one
      lease length; attempts are claims minus reschedules; and the handler has been
      started at most `maxAttempts` times, not counting rescheduled starts. */
  ghost predicate JobOk(c: Config, now: int, job: Job, t: Tally) {
    && (job.leaseUntil.Some? <==> job.status == Running)
    && (job.status == Running ==> job.leaseUntil.value <= now + c.lease && job.attempts >= 1)
    && job.maxAttempts > 0
    && job.attempts == t.claims - t.reschedules >= 0
    && t.starts - t.reschedules <= job.attempts
    && t.starts - t.reschedules <= job.maxAttempts
  }

  /** A held job runs under an unexpired lease, and the holder's copy is accurate. */
  ghost predicate HeldOk(now: int, phase: Phase, job: Job, t: Tally)
    requires !phase.Polling?
  {
    && job.status == Running
    && job.leaseUntil.Some? && now < job.leaseUntil.value
    && job.attempts == phase.job.attempts
    && job.maxAttempts == phase.job.maxAttempts
    && (phase.Claimed? ==> t.starts - t.reschedules < job.attempts)
    && (!phase.Claimed? ==> job.attempts <= job.maxAttempts)
  }

  /** The part of a world the safety argument is about, with the queue as a map. */
  datatype Core = Core(v: map<nat, Job>, now: int, execs: map<nat, Exec>, tallies: map<nat, Tally>)

  ghost function CoreOf(w: World): Core {
    Core(View(w.jobs), w.now, w.execs, w.tallies)
  }

  ghost predicate HolderOk(k: Core, exec: Exec)
    requires exec.Holds()
  {
    var id := exec.phase.job.id;
    id in k.v && id in k.tallies && HeldOk(k.now, exec.phase, k.v[id], k.tallies[id])
  }

  ghost predicate Exclusive(execs: map<nat, Exec>) {
    forall x, y :: x in execs && y in execs && x != y && execs[x].Holds() && execs[y].Holds() ==>
      execs[x].phase.job.id != execs[y].phase.job.id
  }

  ghost predicate CoreInv(c: Config, k: Core) {
    && k.tallies.Keys == k.v.Keys
    && (forall id :: id in k.v ==> JobOk(c, k.now, k.v[id], k.tallies[id]))
    && (forall x :: x in k.execs && k.execs[x].Holds() ==> HolderOk(k, k.execs[x]))
    && Exclusive(k.execs)
  }

  ghost predicate QueueInv(w: World) {
    UniqueIds(w.jobs) && forall id :: id in View(w.jobs) ==> id < w.nextId && View(w.jobs)[id].id == id
  }

  ghost function ExecsOf(execs: map<nat, Exec>, p: nat): set<nat> {
    set x | x in execs && execs[x].process == p
  }

  /** The slot counter of a process is the number of its goroutines, at most `workers`. */
  ghost predicate SlotsInv(c: Config, execs: map<nat, Exec>, slots: map<nat, int>) {
    forall p :: SlotsOf(slots, p) == |ExecsOf(execs, p)| <= c.workers
  }

  ghost predicate Inv(c: Config, w: World) {
    QueueInv(w) && CoreInv(c, CoreOf(w)) && SlotsInv(c, w.execs, w.slots)
  }

  // ----- every step keeps the slot accounting

  /** A goroutine leaves and gives its slot back. */
  lemma LeaveKeepsSlots(c: Config, execs: map<nat, Exec>, slots: map<nat, int>, x: nat)
    requires x in execs && SlotsInv(c, execs, slots)
    ensures SlotsInv(c, execs - {x}, slots[execs[x].process := SlotsOf(slots, execs[x].process) - 1])
  {
    var execs', slots' := execs - {x}, slots[execs[x].process := SlotsOf(slots, execs[x].process) - 1];
    forall p
      ensures SlotsOf(slots', p) == |ExecsOf(execs', p)| <= c.workers
    {
      assert SlotsOf(slots, p) == |ExecsOf(execs, p)| <= c.workers;
      assert ExecsOf(execs', p) == if p == execs[x].process then ExecsOf(execs, p) - {x} else ExecsOf(execs, p);
    }
  }

  lemma SameProcessesKeepSlots(c: Config, execs: map<nat, Exec>, execs': map<nat, Exec>, slots: map<nat, int>)
    requires SlotsInv(c, execs, slots) && execs'.Keys == execs.Keys
    requires forall x :: x in execs ==> execs'[x].process == execs[x].process
    ensures SlotsInv(c, execs', slots)
  {
    forall p
      ensures SlotsOf(slots, p) == |ExecsOf(execs', p)| <= c.workers
    {
      assert SlotsOf(slots, p) == |ExecsOf(execs, p)| <= c.workers;
      assert ExecsOf(execs', p) == ExecsOf(execs, p);
    }
  }

  lemma JoinKeepsSlots(c: Config, execs: map<nat, Exec>, slots: map<nat, int>, x: nat, exec: Exec)
    requires SlotsInv(c, execs, slots) && x !in execs && SlotsOf(slots, exec.process) < c.workers
    ensures SlotsInv(c, execs[x := exec], slots[exec.process := SlotsOf(slots, exec.process) + 1])
  {
    var execs', slots' := execs[x := exec], slots[exec.process := SlotsOf(slots, exec.process) + 1];
    forall p
      ensures SlotsOf(slots', p) == |ExecsOf(execs', p)| <= c.workers
    {
      assert SlotsOf(slots, p) == |ExecsOf(execs, p)| <= c.workers;
      if p == exec.process {
        assert x !in ExecsOf(execs, p);
        assert ExecsOf(execs', p) == ExecsOf(execs, p) + {x};
      } else {
        assert ExecsOf(execs', p) == ExecsOf(execs, p);
      }
    }
  }

  function Survivors(execs: map<nat, Exec>, p: nat): map<nat, Exec> {
    map x | x in execs && execs[x].process != p :: execs[x]
  }

  lemma CrashKeepsSlots(c: Config, execs: map<nat, Exec>, slots: map<nat, int>, p: nat)
    requires ValidConfig(c) && SlotsInv(c, execs, slots)
    ensures SlotsInv(c, Survivors(execs, p), slots[p := 0])
  {
    forall q
      ensures SlotsOf(slots[p := 0], q) == |ExecsOf(Survivors(execs, p), q)| <= c.workers
    {
      assert SlotsOf(slots, q) == |ExecsOf(execs, q)| <= c.workers;
      assert ExecsOf(Survivors(execs, p), q) == if q == p then {} else ExecsOf(execs, q);
    }
  }

  lemma StepKeepsSlots(c: Config, w: World, step: Step)
    requires ValidConfig(c) && SlotsInv(c, w.execs, w.slots) && Enabled(c, w, step)
    ensures SlotsInv(c, After(c, w, step).execs, After(c, w, step).slots)
  {
    match step {
      case Acquire(p, x) => JoinKeepsSlots(c, w.execs, w.slots, x, Exec(p, Polling));
      case Crash(p) => CrashKeepsSlots(c, w.execs, w.slots, p);
      case Poll(x) => OwnStepKeepsSlots(c, w, step);
      case Begin(x) => OwnStepKeepsSlots(c, w, step);
      case WriteResult(x) => OwnStepKeepsSlots(c, w, step);
      case Finish(x) => OwnStepKeepsSlots(c, w, step);
      case _ => SameProcessesKeepSlots(c, w.execs, After(c, w, step).execs, w.slots);
    }
  }

  /** A goroutine goes on, or leaves. */
  lemma OwnStepKeepsSlots(c: Config, w: World, step: Step)
    requires SlotsInv(c, w.execs, w.slots) && Enabled(c, w, step)
    requires step.Poll? || step.Begin? || step.WriteResult? || step.Finish?
    ensures SlotsInv(c, After(c, w, step).execs, After(c, w, step).slots)
  {
    var w' := After(c, w, step);
    if step.x in w'.execs {
      SameProcessesKeepSlots(c, w.execs, w'.execs, w.slots);
    } else {
      LeaveKeepsSlots(c, w.execs, w.slots, step.x);
    }
  }

  // ----- every step keeps the queue and its holders in order

  /** What one step does to the core: at most one record and its tally change. */
  datatype Effect = Quiet | Put(job: Job, tally: Tally)

  ghost predicate Effected(k: Core, k': Core, e: Effect) {
    match e
    case Quiet => k'.v == k.v && k'.tallies == k.tallies
    case Put(job, tally) => k'.v == k.v[job.id := job] && k'.tallies == k.tallies[job.id := tally]
  }

  /** A step that writes one record keeps the core invariant when that record is left in
      order, every goroutine still holding it is in order, and nobody else gains a job. */
  lemma PutKeepsCore(c: Config, k: Core, k': Core, job: Job, tally: Tally)
    requires CoreInv(c, k) && Effected(k, k', Put(job, tally)) && k'.now == k.now
    requires JobOk(c, k.now, job, tally)
    requires forall x :: x in k'.execs && k'.execs[x].Holds() ==>
               (if k'.execs[x].phase.job.id == job.id then HeldOk(k.now, k'.execs[x].phase, job, tally)
                else x in k.execs && k'.execs[x] == k.execs[x])
    requires Exclusive(k'.execs)
    ensures CoreInv(c, k')
  {
    forall x | x in k'.execs && k'.execs[x].Holds()
      ensures HolderOk(k', k'.execs[x])
    {
      if k'.execs[x].phase.job.id != job.id {
        assert HolderOk(k, k.execs[x]);
      }
    }
  }

  lemma StoredIsOk(c: Config, now: int, job: Job, id: nat)
    ensures JobOk(c, now, Stored(job, id, now), Tally(0, 0, 0))
  {
  }

  lemma EnqueueKeepsInv(c: Config, w: World, job: Job)
    requires ValidConfig(c) && Inv(c, w)
    ensures Inv(c, After(c, w, Enqueue(job)))
  {
    var w' := After(c, w, Enqueue(job));
    StepKeepsSlots(c, w, Enqueue(job));
    if Duplicate(w.jobs, job) {
      assert w' == w;
    } else {
      var stored := Stored(job, w.nextId, w.now);
      ViewAppend(w.jobs, stored);
      StoredIsOk(c, w.now, job, w.nextId);
      PutKeepsCore(c, CoreOf(w), CoreOf(w'), stored, Tally(0, 0, 0));
    }
  }

  /** Canceling only touches pending records, which nobody holds. */
  lemma CancelKeepsCore(c: Config, k: Core, k': Core, eventId: nat, kinds: seq<Kind>)
    requires CoreInv(c, k) && k'.v.Keys == k.v.Keys && k' == k.(v := k'.v)
    requires forall id :: id in k.v ==>
               k'.v[id] == if Cancels(k.v[id], eventId, kinds) then CanceledAt(k.v[id], k.now) else k.v[id]
    ensures CoreInv(c, k')
  {
    forall x | x in k'.execs && k'.execs[x].Holds()
      ensures HolderOk(k', k'.execs[x])
    {
      assert HolderOk(k, k.execs[x]);
    }
  }

  lemma CancelKeepsInv(c: Config, w: World, eventId: nat, kinds: seq<Kind>)
    requires ValidConfig(c) && Inv(c, w)
    ensures Inv(c, After(c, w, Cancel(eventId, kinds)))
  {
    StepKeepsSlots(c, w, Cancel(eventId, kinds));
    ViewCancel(w.jobs, eventId, kinds, w.now);
    CancelKeepsCore(c, CoreOf(w), CoreOf(After(c, w, Cancel(eventId, kinds))), eventId, kinds);
  }

  lemma PollKeepsInv(c: Config, w: World, x: nat)
    requires ValidConfig(c) && Inv(c, w) && Enabled(c, w, Poll(x))
    ensures Inv(c, After(c, w, Poll(x)))
  {
    StepKeepsSlots(c, w, Poll(x));
    var w' := After(c, w, Poll(x));
    var k, k' := CoreOf(w), CoreOf(w');
    ViewClaim(w.jobs, w.now, c.lease);
    match Claim(w.jobs, w.now, c.lease).1 {
      case None =>
        forall y | y in k'.execs && k'.execs[y].Holds()
          ensures HolderOk(k', k'.execs[y])
        {
          assert HolderOk(k, k.execs[y]);
        }
      case Some(job) =>
        var t := w.tallies[job.id];
        // A claimable job is held by nobody: a holder's lease would not have expired.
        forall y | y in k.execs && k.execs[y].Holds()
          ensures k.execs[y].phase.job.id != job.id
        {
          assert HolderOk(k, k.execs[y]);
        }
        PutKeepsCore(c, k, k', job, Plus(t, Tally(1, 0, 0)));
    }
  }

  /** A holder writes its job back and lets go of it. */
  lemma HolderWrites(c: Config, w: World, w': World, x: nat, write: Write, tally: Tally)
    requires QueueInv(w) && CoreInv(c, CoreOf(w)) && x in w.execs && w.execs[x].Holds()
    requires var id := w.execs[x].phase.job.id;
             && id in View(w.jobs) && id in w.tallies
             && w'.jobs == WriteBack(w.jobs, id, write, w.now)
             && w'.tallies == w.tallies[id := tally]
             && JobOk(c, w.now, Written(View(w.jobs)[id], write, w.now), tally)
    requires w'.nextId == w.nextId && w'.now == w.now && w'.execs.Keys <= w.execs.Keys
    requires forall y :: y in w'.execs && y != x ==> w'.execs[y] == w.execs[y]
    requires x in w'.execs ==> !w'.execs[x].Holds()
    ensures QueueInv(w') && CoreInv(c, CoreOf(w'))
  {
    var k := CoreOf(w);
    var id := w.execs[x].phase.job.id;
    var job := Written(k.v[id], write, w.now);
    ViewWrite(w.jobs, id, write, w.now);
    PutKeepsCore(c, k, CoreOf(w'), job, tally);
  }

  lemma BeginKeepsInv(c: Config, w: World, x: nat)
    requires ValidConfig(c) && Inv(c, w) && Enabled(c, w, Begin(x))
    ensures Inv(c, After(c, w, Begin(x)))
  {
    StepKeepsSlots(c, w, Begin(x));
    var w' := After(c, w, Begin(x));
    var k := CoreOf(w);
    assert HolderOk(k, k.execs[x]);
    var job := w.execs[x].phase.job;
    var t := w.tallies[job.id];
    if job.attempts > job.maxAttempts {
      HolderWrites(c, w, w', x, Fail("max attempts exceeded"), t);
    } else {
      PutKeepsCore(c, k, CoreOf(w'), k.v[job.id], Plus(t, Tally(0, 1, 0)));
    }
  }

  lemma HeartbeatKeepsInv(c: Config, w: World, x: nat)
    requires ValidConfig(c) && Inv(c, w) && Enabled(c, w, Heartbeat(x))
    ensures Inv(c, After(c, w, Heartbeat(x)))
  {
    StepKeepsSlots(c, w, Heartbeat(x));
    var k, k' := CoreOf(w), CoreOf(After(c, w, Heartbeat(x)));
    var id := w.execs[x].phase.job.id;
    ViewExtend(w.jobs, id, w.now + c.lease, w.now);
    if id in k.v && k.v[id].status == Running {
      ExtendKeepsCore(c, k, k', id);
    } else {
      assert k' == k;
    }
  }

  /** A longer lease is as good for whoever holds the job. */
  lemma ExtendKeepsCore(c: Config, k: Core, k': Core, id: nat)
    requires ValidConfig(c) && CoreInv(c, k) && id in k.v && k.v[id].status == Running && k.v[id].id == id
    requires k' == k.(v := k.v[id := Extended(k.v[id], k.now + c.lease, k.now)])
    ensures CoreInv(c, k')
  {
    var job := Extended(k.v[id], k.now + c.lease, k.now);
    forall y | y in k.execs && k.execs[y].Holds() && k.execs[y].phase.job.id == id
      ensures HeldOk(k.now, k.execs[y].phase, job, k.tallies[id])
    {
      assert HolderOk(k, k.execs[y]);
    }
    assert k'.tallies == k.tallies[id := k.tallies[id]];
    PutKeepsCore(c, k, k', job, k.tallies[id]);
  }

  lemma RescheduleKeepsInv(c: Config, w: World, x: nat, runAt: int)
    requires ValidConfig(c) && Inv(c, w) && Enabled(c, w, HandlerReschedules(x, runAt))
    ensures Inv(c, After(c, w, HandlerReschedules(x, runAt)))
  {
    StepKeepsSlots(c, w, HandlerReschedules(x, runAt));
    assert HolderOk(CoreOf(w), w.execs[x]);
    var t := w.tallies[w.execs[x].phase.job.id];
    HolderWrites(c, w, After(c, w, HandlerReschedules(x, runAt)), x, Reschedule(runAt),
                 Plus(t, Tally(0, 0, 1)));
  }

  lemma WriteResultKeepsInv(c: Config, w: World, x: nat)
    requires ValidConfig(c) && Inv(c, w) && Enabled(c, w, WriteResult(x))
    ensures Inv(c, After(c, w, WriteResult(x)))
  {
    StepKeepsSlots(c, w, WriteResult(x));
    assert HolderOk(CoreOf(w), w.execs[x]);
    var phase := w.execs[x].phase;
    HolderWrites(c, w, After(c, w, WriteResult(x)), x, ResultOf(phase.job, phase.outcome, w.now),
                 w.tallies[phase.job.id]);
  }

  /** Steps that leave the queue alone and give nobody a job. */
  lemma QuietKeepsInv(c: Config, w: World, step: Step)
    requires ValidConfig(c) && Inv(c, w) && Enabled(c, w, step)
    requires step.Acquire? || step.HandlerReturns? || step.Finish? || step.Crash? || step.Tick?
    ensures Inv(c, After(c, w, step))
  {
    StepKeepsSlots(c, w, step);
    var k, k' := CoreOf(w), CoreOf(After(c, w, step));
    forall y | y in k'.execs && k'.execs[y].Holds()
      ensures HolderOk(k', k'.execs[y])
    {
      assert HolderOk(k, k.execs[y]);
      assert step.Tick? ==> LeaseBeyond(k.v, k.execs[y], step.to);
    }
  }

  lemma StepKeepsInv(c: Config, w: World, step: Step)
    requires ValidConfig(c) && Inv(c, w) && Enabled(c, w, step)
    ensures Inv(c, After(c, w, step))
  {
    match step {
      case Enqueue(job) => EnqueueKeepsInv(c, w, job);
      case Cancel(eventId, kinds) => CancelKeepsInv(c, w, eventId, kinds);
      case Poll(x) => PollKeepsInv(c, w, x);
      case Begin(x) => BeginKeepsInv(c, w, x);
      case Heartbeat(x) => HeartbeatKeepsInv(c, w, x);
      case HandlerReschedules(x, runAt) => RescheduleKeepsInv(c, w, x, runAt);
      case WriteResult(x) => WriteResultKeepsInv(c, w, x);
      case _ => QuietKeepsInv(c, w, step);
    }
  }

  // ----- what a step does to one record

  predicate TakesJob(c: Config, w: World, id: nat) {
    match Claim(w.jobs, w.now, c.lease).1
    case Some(job) => job.id == id
    case None => false
  }

  /** The record a step leaves where it found `job`. */
  ghost function RecordAfter(c: Config, w: World, step: Step, job: Job): Job
    requires Enabled(c, w, step)
  {
    match step
    case Cancel(eventId, kinds) => if Cancels(job, eventId, kinds) then CanceledAt(job, w.now) else job
    case Poll(x) => if TakesJob(c, w, job.id) then Jobs.Claimed(job, w.now, c.lease) else job
    case Begin(x) =>
      var copy := w.execs[x].phase.job;
      if copy.id == job.id && copy.attempts > copy.maxAttempts then
        Written(job, Fail("max attempts exceeded"), w.now)
      else job
    case Heartbeat(x) =>
      if w.execs[x].phase.job.id == job.id && job.status == Running then Extended(job, w.now + c.lease, w.now)
      else job
    case HandlerReschedules(x, runAt) =>
      if w.execs[x].phase.job.id == job.id then Written(job, Reschedule(runAt), w.now) else job
    case WriteResult(x) =>
      var phase := w.execs[x].phase;
      if phase.job.id == job.id then Written(job, ResultOf(phase.job, phase.outcome, w.now), w.now) else job
    case _ => job
  }

  lemma QueueStepRecord(c: Config, w: World, step: Step, id: nat)
    requires QueueInv(w) && Enabled(c, w, step) && id in View(w.jobs)
    requires step.Enqueue? || step.Cancel? || step.Poll?
    ensures id in View(After(c, w, step).jobs)
    ensures View(After(c, w, step).jobs)[id] == RecordAfter(c, w, step, View(w.jobs)[id])
    ensures step.Poll? && TakesJob(c, w, id) ==> Claimable(View(w.jobs)[id], w.now)
  {
    match step {
      case Enqueue(job) =>
        if !Duplicate(w.jobs, job) { ViewAppend(w.jobs, Stored(job, w.nextId, w.now)); }
      case Cancel(eventId, kinds) => ViewCancel(w.jobs, eventId, kinds, w.now);
      case Poll(_) => ViewClaim(w.jobs, w.now, c.lease);
    }
  }

  lemma WriteStepRecord(c: Config, w: World, step: Step, id: nat)
    requires QueueInv(w) && Enabled(c, w, step) && id in View(w.jobs)
    requires step.Begin? || step.HandlerReschedules? || step.WriteResult?
    ensures id in View(After(c, w, step).jobs)
    ensures View(After(c, w, step).jobs)[id] == RecordAfter(c, w, step, View(w.jobs)[id])
  {
    var phase := w.execs[step.x].phase;
    match step {
      case Begin(_) => ViewWrite(w.jobs, phase.job.id, Fail("max attempts exceeded"), w.now);
      case HandlerReschedules(_, runAt) => ViewWrite(w.jobs, phase.job.id, Reschedule(runAt), w.now);
      case WriteResult(_) => ViewWrite(w.jobs, phase.job.id, ResultOf(phase.job, phase.outcome, w.now), w.now);
    }
  }

  lemma StepRecord(c: Config, w: World, step: Step, id: nat)
    requires QueueInv(w) && Enabled(c, w, step) && id in View(w.jobs)
    ensures id in View(After(c, w, step).jobs)
    ensures View(After(c, w, step).jobs)[id] == RecordAfter(c, w, step, View(w.jobs)[id])
    ensures step.Poll? && TakesJob(c, w, id) ==> Claimable(View(w.jobs)[id], w.now)
  {
    if step.Enqueue? || step.Cancel? || step.Poll? {
      QueueStepRecord(c, w, step, id);
    } else if step.Begin? || step.HandlerReschedules? || step.WriteResult? {
      WriteStepRecord(c, w, step, id);
    } else if step.Heartbeat? {
      ViewExtend(w.jobs, w.execs[step.x].phase.job.id, w.now + c.lease, w.now);
    }
  }
}
