/** The worker (scheduler/worker.go): it takes a slot before it claims, so that a claimed job
    never waits, and writes the result of each job back. */
module Workers {
  import opened Common
  import opened Jobs
  import opened Participations
  import opened Events
  import opened Manager
  import opened Stores
  import opened Providers
  import opened UseCases

  /** Up to `n` claims in a row: the queue afterwards and the jobs taken. */
  function Claims(jobs: seq<Job>, lease: int, now: int, n: nat): (seq<Job>, seq<Job>)
    decreases n
  {
    if n == 0 then (jobs, [])
    else
      match Claim(jobs, now, lease)
      case (_, None) => (jobs, [])
      case (claimed, Some(job)) =>
        var (rest, more) := Claims(claimed, lease, now, n - 1);
        (rest, [job] + more)
  }

  /** What the first claim of a round does. */
  lemma FirstClaim(jobs: seq<Job>, lease: int, now: int, n: nat) returns (t: nat)
    requires n > 0 && exists i :: 0 <= i < |jobs| && Claimable(jobs[i], now)
    ensures t < |jobs| && Claimable(jobs[t], now)
    ensures forall i :: 0 <= i < |jobs| && Claimable(jobs[i], now) ==> jobs[t].runAt <= jobs[i].runAt
    ensures var job := Claimed(jobs[t], now, lease);
            var (rest, more) := Claims(jobs[t := job], lease, now, n - 1);
            Claims(jobs, lease, now, n) == (rest, [job] + more)
  {
    t := Best(jobs, now, |jobs|).value;
  }

  predicate AnyDue(jobs: seq<Job>, now: int) {
    exists i :: 0 <= i < |jobs| && Claimable(jobs[i], now)
  }

  /** Each job taken was claimable and is running now; every other record is as it was. */
  ghost predicate Took(jobs: seq<Job>, lease: int, now: int, rest: seq<Job>, taken: seq<Job>) {
    && |rest| == |jobs|
    && (forall i :: 0 <= i < |jobs| ==>
          rest[i] == jobs[i]
          || (Claimable(jobs[i], now) && rest[i] == Claimed(jobs[i], now, lease) && rest[i] in taken))
    && (forall k :: 0 <= k < |taken| ==>
          exists i :: 0 <= i < |jobs| && Claimable(jobs[i], now) && taken[k] == Claimed(jobs[i], now, lease) == rest[i])
  }

  lemma TookOneMore(jobs: seq<Job>, lease: int, now: int, t: nat, rest: seq<Job>, more: seq<Job>)
    requires lease > 0 && t < |jobs| && Claimable(jobs[t], now)
    requires Took(jobs[t := Claimed(jobs[t], now, lease)], lease, now, rest, more)
    ensures Took(jobs, lease, now, rest, [Claimed(jobs[t], now, lease)] + more)
  {
    var job := Claimed(jobs[t], now, lease);
    var claimed, taken := jobs[t := job], [job] + more;
    assert !Claimable(job, now) && rest[t] == job && taken[0] == job;
    forall i | 0 <= i < |jobs| && rest[i] != jobs[i]
      ensures Claimable(jobs[i], now) && rest[i] == Claimed(jobs[i], now, lease) && rest[i] in taken
    {
      assert i != t ==> claimed[i] == jobs[i];
    }
    forall k | 0 <= k < |taken|
      ensures exists i :: 0 <= i < |jobs| && Claimable(jobs[i], now) && taken[k] == Claimed(jobs[i], now, lease) == rest[i]
    {
      if k > 0 {
        assert taken[k] == more[k - 1];
        var i :| 0 <= i < |claimed| && Claimable(claimed[i], now) && more[k - 1] == Claimed(claimed[i], now, lease) == rest[i];
        assert jobs[i] == claimed[i];
      }
    }
  }

  lemma {:induction false} ClaimsTake(jobs: seq<Job>, lease: int, now: int, n: nat)
    requires lease > 0
    ensures Took(jobs, lease, now, Claims(jobs, lease, now, n).0, Claims(jobs, lease, now, n).1)
    decreases n
  {
    if n > 0 && AnyDue(jobs, now) {
      var t := FirstClaim(jobs, lease, now, n);
      var claimed := jobs[t := Claimed(jobs[t], now, lease)];
      ClaimsTake(claimed, lease, now, n - 1);
      TookOneMore(jobs, lease, now, t, Claims(claimed, lease, now, n - 1).0, Claims(claimed, lease, now, n - 1).1);
    }
  }

  /** What is taken is due no later than anything left, most urgent first. */
  ghost predicate MostUrgent(rest: seq<Job>, taken: seq<Job>, now: int) {
    && (forall k, i :: 0 <= k < |taken| && 0 <= i < |rest| && Claimable(rest[i], now) ==> taken[k].runAt <= rest[i].runAt)
    && (forall k, l :: 0 <= k < l < |taken| ==> taken[k].runAt <= taken[l].runAt)
  }

  lemma EarlierStillUrgent(jobs: seq<Job>, lease: int, now: int, t: nat, rest: seq<Job>, more: seq<Job>)
    requires lease > 0 && t < |jobs| && Claimable(jobs[t], now)
    requires forall i :: 0 <= i < |jobs| && Claimable(jobs[i], now) ==> jobs[t].runAt <= jobs[i].runAt
    requires Took(jobs[t := Claimed(jobs[t], now, lease)], lease, now, rest, more) && MostUrgent(rest, more, now)
    ensures MostUrgent(rest, [Claimed(jobs[t], now, lease)] + more, now)
  {
    var job := Claimed(jobs[t], now, lease);
    var claimed := jobs[t := job];
    assert !Claimable(job, now);
    forall l | 0 <= l < |more|
      ensures job.runAt <= more[l].runAt
    {
      var i :| 0 <= i < |claimed| && Claimable(claimed[i], now) && more[l] == Claimed(claimed[i], now, lease) == rest[i];
      assert claimed[i] == jobs[i];
    }
    forall i | 0 <= i < |rest| && Claimable(rest[i], now)
      ensures job.runAt <= rest[i].runAt
    {
      assert rest[i] == claimed[i] == jobs[i];
    }
  }

  /** A round leaves part of its allowance unused only when nothing is due; what it takes is
      due no later than anything it leaves, most urgent first. */
  lemma {:induction false} ClaimsMostUrgent(jobs: seq<Job>, lease: int, now: int, n: nat)
    requires lease > 0
    ensures var (rest, taken) := Claims(jobs, lease, now, n);
            |taken| <= n && (|taken| < n ==> !AnyDue(rest, now)) && MostUrgent(rest, taken, now)
    decreases n
  {
    if n > 0 && AnyDue(jobs, now) {
      var t := FirstClaim(jobs, lease, now, n);
      var claimed := jobs[t := Claimed(jobs[t], now, lease)];
      ClaimsMostUrgent(claimed, lease, now, n - 1);
      ClaimsTake(claimed, lease, now, n - 1);
      EarlierStillUrgent(jobs, lease, now, t, Claims(claimed, lease, now, n - 1).0, Claims(claimed, lease, now, n - 1).1);
    }
  }

  /** In the middle of a round: `taken` so far, and the rest of the round would complete it. */
  ghost predicate GoesOn(queue: seq<Job>, lease: int, now: int, n: nat, jobs: seq<Job>, taken: seq<Job>, left: nat) {
    var (rest, more) := Claims(jobs, lease, now, left);
    Claims(queue, lease, now, n) == (rest, taken + more)
  }

  lemma RoundBegins(queue: seq<Job>, lease: int, now: int, n: nat)
    ensures GoesOn(queue, lease, now, n, queue, [], n)
  {
    var more := Claims(queue, lease, now, n).1;
    assert [] + more == more;
  }

  lemma RoundIsOver(queue: seq<Job>, lease: int, now: int, n: nat, jobs: seq<Job>, taken: seq<Job>)
    requires GoesOn(queue, lease, now, n, jobs, taken, 0)
    ensures Claims(queue, lease, now, n) == (jobs, taken)
  {
    assert taken + [] == taken;
  }

  lemma RoundGoesOn(queue: seq<Job>, lease: int, now: int, n: nat, jobs: seq<Job>, taken: seq<Job>, left: nat)
    requires GoesOn(queue, lease, now, n, jobs, taken, left) && left > 0
    ensures match Claim(jobs, now, lease)
            case (jobs', None) => jobs' == jobs && Claims(queue, lease, now, n) == (jobs', taken)
            case (jobs', Some(job)) => GoesOn(queue, lease, now, n, jobs', taken + [job], left - 1)
  {
    match Claim(jobs, now, lease) {
      case (_, None) => assert taken + [] == taken;
      case (jobs', Some(job)) =>
        var more := Claims(jobs', lease, now, left - 1).1;
        assert taken + ([job] + more) == taken + [job] + more;
    }
  }

  /** One claim and the job's run come after the other. */
  ghost predicate Follows(a: State, b: State, lease: int, now: int) {
    ClaimJob(a, lease, now).1.Some? && b == RunJob(a, lease, now)
  }

  ghost predicate Chained(states: seq<State>, lease: int, now: int) {
    forall i :: 0 <= i < |states| - 1 ==> Follows(states[i], states[i + 1], lease, now)
  }

  lemma ChainGrows(states: seq<State>, s: State, lease: int, now: int)
    requires states != [] && Chained(states, lease, now) && Follows(states[|states| - 1], s, lease, now)
    ensures Chained(states + [s], lease, now)
  {
  }

  /** The states of a synchronous round: at most `n` jobs, and fewer only if none is left. */
  ghost predicate Round(states: seq<State>, lease: int, now: int, n: nat) {
    && 1 <= |states| <= n + 1
    && Chained(states, lease, now)
    && (|states| < n + 1 ==> NothingDue(states[|states| - 1], lease, now))
  }

  ghost predicate NothingDue(s: State, lease: int, now: int) {
    ClaimJob(s, lease, now).1.None?
  }

  class Worker {
    const services: Services
    const lease: int
    const workers: nat
    const batch: nat
    /** Slots taken, and the jobs being executed under them. */
    var slots: nat
    var executing: seq<Job>

    ghost predicate Valid()
      reads this
    {
      slots == |executing| <= workers
    }

    /** `withDefaults` makes the settings positive. */
    constructor (services: Services, lease: int, workers: nat, batch: nat)
      requires lease > 0 && workers > 0 && batch > 0
      ensures Valid() && executing == []
      ensures this.services == services && this.lease == lease && this.workers == workers && this.batch == batch
    {
      this.services, this.lease, this.workers, this.batch := services, lease, workers, batch;
      slots, executing := 0, [];
    }

    /** One round of claims: a slot first, then a job; without a job the slot goes back. */
    method Poll(now: int)
      requires Valid()
      modifies this`slots, this`executing, services.store`jobs
      ensures Valid()
      ensures var (queue, taken) := Claims(old(services.store.jobs), lease, now, Min(batch, workers - old(slots)));
              services.store.jobs == queue && executing == old(executing) + taken
    {
      ghost var queue, free := services.store.jobs, workers - slots;
      ghost var taken: seq<Job> := [];
      RoundBegins(queue, lease, now, Min(batch, free));
      for k := 0 to batch
        invariant Valid() && executing == old(executing) + taken && free == workers - slots + |taken|
        invariant GoesOn(queue, lease, now, Min(batch, free), services.store.jobs, taken, Min(batch - k, workers - slots))
      {
        if slots == workers {
          RoundIsOver(queue, lease, now, Min(batch, free), services.store.jobs, taken);
          return;
        }
        RoundGoesOn(queue, lease, now, Min(batch, free), services.store.jobs, taken, Min(batch - k, workers - slots));
        slots := slots + 1;
        var job := services.store.ClaimNext(now, lease);
        if job.None? {
          slots := slots - 1;
          return;
        }
        executing := executing + [job.value];
        taken := taken + [job.value];
      }
      RoundIsOver(queue, lease, now, Min(batch, free), services.store.jobs, taken);
    }

    /** run: a job over its limit fails without being started. */
    method Execute(job: Job, now: int)
      modifies services.store, services.provider
      ensures services.Now() == RunClaimed(old(services.Now()), job, now)
    {
      if job.attempts > job.maxAttempts {
        var _ := services.store.FailJob(job.id, "max attempts exceeded", now);
        return;
      }
      var handled := services.HandleJob(job, now);
      WriteResult(job, handled, now);
    }

    /** A rescheduled job is pending again already: its record is left alone. */
    method WriteResult(job: Job, handled: Handled, now: int)
      modifies services.store`jobs
      ensures services.Now() == WriteHandled(old(services.Now()), job, handled, now)
    {
      match handled {
        case Finished =>
          var _ := services.store.CompleteJob(job.id, now);
        case WasRescheduled =>
        case HandlerError(e) =>
          if e == PermanentError || e == Validation {
            var _ := services.store.FailJob(job.id, "permanent", now);
          } else {
            var delay := Backoff(job.attempts);
            var _ := services.store.RetryJob(job.id, now + delay, "retry", now);
          }
      }
    }

    /** One of the executing jobs runs to its end and gives its slot back. */
    method Finish(i: nat, now: int)
      requires Valid() && i < |executing|
      modifies this`slots, this`executing, services.store, services.provider
      ensures Valid() && slots == old(slots) - 1
      ensures executing == old(executing)[..i] + old(executing)[i + 1..]
      ensures services.Now() == RunClaimed(old(services.Now()), old(executing)[i], now)
    {
      var job := executing[i];
      Execute(job, now);
      executing := executing[..i] + executing[i + 1..];
      slots := slots - 1;
    }

    method RunNext(now: int) returns (ran: bool)
      modifies services.store, services.provider
      ensures ran ==> Follows(old(services.Now()), services.Now(), lease, now)
      ensures !ran ==> NothingDue(services.Now(), lease, now) && services.Now() == old(services.Now())
    {
      var job := services.store.ClaimNext(now, lease);
      ran := job.Some?;
      if ran {
        Execute(job.value, now);
      }
    }

    /** A synchronous round; `states` is what it passes through. */
    method RunOnce(now: int) returns (done: nat, ghost states: seq<State>)
      modifies services.store, services.provider
      ensures Round(states, lease, now, batch) && done == |states| - 1
      ensures states[0] == old(services.Now()) && states[done] == services.Now()
    {
      done := 0;
      states := [services.Now()];
      for k := 0 to batch
        invariant done == k == |states| - 1
        invariant states[0] == old(services.Now()) && states[k] == services.Now()
        invariant Chained(states, lease, now)
      {
        var ran := RunNext(now);
        if !ran {
          return;
        }
        ChainGrows(states, services.Now(), lease, now);
        states := states + [services.Now()];
        done := done + 1;
      }
    }
  }
}
