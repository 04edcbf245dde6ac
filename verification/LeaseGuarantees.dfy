/** What the lease protocol guarantees in every run: mutual exclusion, bounded attempts,
    absorbing terminal states, recovery after a crash. */
module LeaseGuarantees {
  import opened Common
  import opened Jobs
  import opened LeaseProtocol
  import Sorting

  lemma {:induction false} RunKeepsInv(c: Config, ws: seq<World>, i: nat)
    requires ValidConfig(c) && Run(c, ws) && i < |ws|
    ensures Inv(c, ws[i])
  {
    if i == 0 {
      forall p
        ensures SlotsOf(ws[0].slots, p) == |ExecsOf(ws[0].execs, p)| <= c.workers
      {
        assert ExecsOf(ws[0].execs, p) == {};
      }
    } else {
      RunKeepsInv(c, ws, i - 1);
      assert Linked(c, ws, i - 1);
      var step :| Enabled(c, ws[i - 1], step) && ws[i] == After(c, ws[i - 1], step);
      StepKeepsInv(c, ws[i - 1], step);
    }
  }

  /** Lease safety in every reachable state: two live goroutines never hold one job, a held
      job runs under an unexpired lease, and a lease is recorded exactly while a job runs. */
  lemma LeaseSafety(c: Config, ws: seq<World>, i: nat)
    requires ValidConfig(c) && Run(c, ws) && i < |ws|
    ensures var w := ws[i]; var v := View(w.jobs);
      && (forall x, y :: x in w.execs && y in w.execs && x != y && w.execs[x].Holds() && w.execs[y].Holds() ==>
            w.execs[x].phase.job.id != w.execs[y].phase.job.id)
      && (forall x :: x in w.execs && w.execs[x].Holds() ==>
            var id := w.execs[x].phase.job.id;
            id in v && v[id].status == Running && v[id].leaseUntil.Some? && w.now < v[id].leaseUntil.value)
      && (forall id :: id in v ==> (v[id].leaseUntil.Some? <==> v[id].status == Running))
  {
    RunKeepsInv(c, ws, i);
    var k := CoreOf(ws[i]);
    forall x | x in k.execs && k.execs[x].Holds()
      ensures HolderOk(k, k.execs[x])
    {
    }
  }

  /** Attempts are claims minus reschedules; crashes included, the handler has been started
      at most `maxAttempts` times more often than it rescheduled. */
  lemma BoundedStarts(c: Config, ws: seq<World>, i: nat, id: nat)
    requires ValidConfig(c) && Run(c, ws) && i < |ws| && id in View(ws[i].jobs)
    ensures id in ws[i].tallies
    ensures var job := View(ws[i].jobs)[id]; var t := ws[i].tallies[id];
            0 <= job.attempts == t.claims - t.reschedules && t.starts - t.reschedules <= job.maxAttempts
  {
    RunKeepsInv(c, ws, i);
    assert JobOk(c, ws[i].now, CoreOf(ws[i]).v[id], CoreOf(ws[i]).tallies[id]);
  }

  /** A process never executes more jobs at once than it has worker slots. */
  lemma SlotsLimitExecution(c: Config, ws: seq<World>, i: nat, p: nat, busy: set<nat>)
    requires ValidConfig(c) && Run(c, ws) && i < |ws|
    requires forall x :: x in busy ==>
               x in ws[i].execs && ws[i].execs[x].process == p && !ws[i].execs[x].phase.Polling?
    ensures |busy| <= c.workers
  {
    RunKeepsInv(c, ws, i);
    assert SlotsOf(ws[i].slots, p) == |ExecsOf(ws[i].execs, p)| <= c.workers;
    Sorting.SubsetSize(busy, ExecsOf(ws[i].execs, p));
  }

  // ----- terminal states

  /** No write-back looks at the status, so in an arbitrary state a finished job is put back
      in the queue exactly by a goroutine that still has a copy of it. */
  lemma ReopenedIff(c: Config, w: World, step: Step, id: nat)
    requires QueueInv(w) && Enabled(c, w, step) && id in View(w.jobs) && View(w.jobs)[id].Terminal()
    ensures id in View(After(c, w, step).jobs)
    ensures !View(After(c, w, step).jobs)[id].Terminal() <==>
            || (step.HandlerReschedules? && w.execs[step.x].phase.job.id == id)
            || (step.WriteResult? && w.execs[step.x].phase.job.id == id && w.execs[step.x].phase.outcome.Retryable?)
  {
    StepRecord(c, w, step, id);
  }

  /** Under the lease discipline no such copy exists: a finished record never changes again. */
  lemma TerminalStep(c: Config, w: World, step: Step, id: nat)
    requires ValidConfig(c) && Inv(c, w) && Enabled(c, w, step) && id in View(w.jobs) && View(w.jobs)[id].Terminal()
    ensures id in View(After(c, w, step).jobs) && View(After(c, w, step).jobs)[id] == View(w.jobs)[id]
  {
    var k := CoreOf(w);
    forall x | x in k.execs && k.execs[x].Holds()
      ensures k.execs[x].phase.job.id != id
    {
      assert HolderOk(k, k.execs[x]);
    }
    StepRecord(c, w, step, id);
  }

  /** Done, failed and canceled are absorbing, although no write-back looks at the status. */
  lemma {:induction false} TerminalAbsorbing(c: Config, ws: seq<World>, i: nat, j: nat, id: nat)
    requires ValidConfig(c) && Run(c, ws) && i <= j < |ws|
    requires id in View(ws[i].jobs) && View(ws[i].jobs)[id].Terminal()
    ensures id in View(ws[j].jobs) && View(ws[j].jobs)[id] == View(ws[i].jobs)[id]
  {
    if i < j {
      TerminalAbsorbing(c, ws, i, j - 1, id);
      RunKeepsInv(c, ws, j - 1);
      assert Linked(c, ws, j - 1);
      var step :| Enabled(c, ws[j - 1], step) && ws[j] == After(c, ws[j - 1], step);
      TerminalStep(c, ws[j - 1], step, id);
    }
  }

  // ----- recovery after a crash

  /** Nobody executes this job, and no leftover heartbeat beats for it. */
  ghost predicate Abandoned(execs: map<nat, Exec>, id: nat) {
    forall x :: x in execs && !execs[x].phase.Polling? ==> execs[x].phase.job.id != id
  }

  ghost predicate ClaimableNow(w: World, id: nat) {
    id in View(w.jobs) && Claimable(View(w.jobs)[id], w.now)
  }

  /** Until somebody claims it, an abandoned running job keeps its record. */
  lemma AbandonedStep(c: Config, w: World, step: Step, id: nat)
    requires QueueInv(w) && Enabled(c, w, step)
    requires id in View(w.jobs) && View(w.jobs)[id].status == Running
    requires Abandoned(w.execs, id) && !(step.Poll? && TakesJob(c, w, id))
    ensures id in View(After(c, w, step).jobs) && View(After(c, w, step).jobs)[id] == View(w.jobs)[id]
    ensures Abandoned(After(c, w, step).execs, id)
  {
    StepRecord(c, w, step, id);
  }

  lemma ClaimsGrow(c: Config, w: World, step: Step, id: nat)
    requires Enabled(c, w, step) && id in w.tallies && id < w.nextId
    ensures id in After(c, w, step).tallies
    ensures After(c, w, step).tallies[id].claims == w.tallies[id].claims + if step.Poll? && TakesJob(c, w, id) then 1 else 0
  {
  }

  function ClaimsOf(w: World, id: nat): nat {
    if id in w.tallies then w.tallies[id].claims else 0
  }

  /** The number of claims never falls, and while it stands still the record does too. */
  lemma {:induction false} UnclaimedWaits(c: Config, ws: seq<World>, i: nat, j: nat, id: nat)
    requires ValidConfig(c) && Run(c, ws) && i <= j < |ws|
    requires id in View(ws[i].jobs) && View(ws[i].jobs)[id].status == Running && Abandoned(ws[i].execs, id)
    ensures id in ws[j].tallies && ClaimsOf(ws[i], id) <= ClaimsOf(ws[j], id)
    ensures ClaimsOf(ws[i], id) == ClaimsOf(ws[j], id) ==>
              id in View(ws[j].jobs) && View(ws[j].jobs)[id] == View(ws[i].jobs)[id] && Abandoned(ws[j].execs, id)
  {
    if i == j {
      RunKeepsInv(c, ws, i);
      assert CoreOf(ws[i]).tallies.Keys == CoreOf(ws[i]).v.Keys;
    } else {
      UnclaimedWaits(c, ws, i, j - 1, id);
      RunKeepsInv(c, ws, j - 1);
      assert id in CoreOf(ws[j - 1]).v;
      assert Linked(c, ws, j - 1);
      var step :| Enabled(c, ws[j - 1], step) && ws[j] == After(c, ws[j - 1], step);
      ClaimsGrow(c, ws[j - 1], step, id);
      if ClaimsOf(ws[i], id) == ClaimsOf(ws[j], id) {
        AbandonedStep(c, ws[j - 1], step, id);
      }
    }
  }

  /** Crash recovery is exact: until it is claimed again, a running job whose worker is gone
      can be claimed exactly from the end of its lease on, at most one lease length away. */
  lemma RecoveryIsExact(c: Config, ws: seq<World>, i: nat, j: nat, id: nat)
    requires ValidConfig(c) && Run(c, ws) && i <= j < |ws|
    requires id in View(ws[i].jobs) && View(ws[i].jobs)[id].status == Running && Abandoned(ws[i].execs, id)
    requires ClaimsOf(ws[j], id) == ClaimsOf(ws[i], id)
    ensures View(ws[i].jobs)[id].leaseUntil.Some? && View(ws[i].jobs)[id].leaseUntil.value <= ws[i].now + c.lease
    ensures ClaimableNow(ws[j], id) <==> View(ws[i].jobs)[id].leaseUntil.value <= ws[j].now
  {
    RunKeepsInv(c, ws, i);
    assert JobOk(c, ws[i].now, CoreOf(ws[i]).v[id], CoreOf(ws[i]).tallies[id]);
    UnclaimedWaits(c, ws, i, j, id);
  }

  /** So by the time a lease has passed there was a moment at which it could be claimed. */
  lemma CrashRecovery(c: Config, ws: seq<World>, i: nat, j: nat, id: nat)
    requires ValidConfig(c) && Run(c, ws) && i <= j < |ws|
    requires id in View(ws[i].jobs) && View(ws[i].jobs)[id].status == Running && Abandoned(ws[i].execs, id)
    requires ws[i].now + c.lease <= ws[j].now
    ensures exists k :: i <= k <= j && ClaimableNow(ws[k], id)
  {
    if forall k :: i <= k < j ==> !ClaimableNow(ws[k], id) {
      NobodyClaims(c, ws, i, j, id);
      RecoveryIsExact(c, ws, i, j, id);
      assert ClaimableNow(ws[j], id);
    }
  }

  lemma {:induction false} NobodyClaims(c: Config, ws: seq<World>, i: nat, j: nat, id: nat)
    requires ValidConfig(c) && Run(c, ws) && i <= j < |ws|
    requires id in View(ws[i].jobs) && View(ws[i].jobs)[id].status == Running && Abandoned(ws[i].execs, id)
    requires forall k :: i <= k < j ==> !ClaimableNow(ws[k], id)
    ensures ClaimsOf(ws[j], id) == ClaimsOf(ws[i], id)
  {
    if i < j {
      NobodyClaims(c, ws, i, j - 1, id);
      UnclaimedWaits(c, ws, i, j - 1, id);
      RunKeepsInv(c, ws, j - 1);
      assert Linked(c, ws, j - 1);
      var step :| Enabled(c, ws[j - 1], step) && ws[j] == After(c, ws[j - 1], step);
      StepRecord(c, ws[j - 1], step, id);
      ClaimsGrow(c, ws[j - 1], step, id);
    }
  }
}
