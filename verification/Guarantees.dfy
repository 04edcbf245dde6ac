/** What holds in every sequential run of the manager: reminders are sent at most once,
    closing is final and clean, automatic ends and peeks are neither early nor lost. */
module Guarantees {
  import opened Common
  import opened Jobs
  import opened Reminders
  import opened Participations
  import opened Events
  import opened Manager
  import opened Runs
  import Buttons
  import Creations
  import Edits
  import JobShapes
  import Lifecycle
  import Outcomes
  import Peeks
  import ReminderRuns
  import Roster

  // ----- reminders, crashes included

  lemma ClockKeepsReminders(db: Db, now: int, to: int)
    requires ReminderRuns.Inv(db, now) && now <= to
    ensures ReminderRuns.Inv(db, to)
  {
    forall i | 0 <= i < |db.jobs|
      ensures ReminderRuns.TimedOk(db.jobs[i], db.logs, to)
    {
      assert ReminderRuns.TimedOk(db.jobs[i], db.logs, now);
    }
  }

  lemma WorkerKeepsReminders(s: State, lease: int, now: int)
    requires ReminderRuns.Inv(s.db, now) && Roster.Inv(s)
    ensures ReminderRuns.Inv(RunJob(s, lease, now).db, now)
    ensures ReminderRuns.Inv(ClaimJob(s, lease, now).0.db, now)
    ensures ReminderRuns.Inv(HandleUnwritten(s, lease, now).db, now)
  {
    ReminderRuns.ClaimJobKeepsInv(s, lease, now);
    match ClaimJob(s, lease, now) {
      case (_, None) =>
      case (s1, Some(job)) =>
        ReminderRuns.ClaimedIsThere(s.db, lease, now);
        ReminderRuns.RunClaimedKeepsInv(s1, job, now);
        ReminderRuns.HandleKeepsInv(s1, job, now);
    }
  }

  lemma StepKeepsReminders(y: System, op: Op)
    requires ReminderRuns.Inv(y.s.db, y.now) && Roster.Inv(y.s) && Allowed(y, op)
    ensures ReminderRuns.Inv(Step(y, op).s.db, Step(y, op).now)
  {
    match op {
      case Tick(to) => ClockKeepsReminders(y.s.db, y.now, to);
      case DoCreate(input) => ReminderRuns.CreateKeepsInv(y.s, input, y.now);
      case DoUpdate(eventId, u, actor) => ReminderRuns.UpdateKeepsInv(y.s, eventId, u, actor, y.now);
      case DoClose(eventId, reason, actor) => ReminderRuns.CloseKeepsInv(y.s, eventId, reason, actor, y.now);
      case DoApply(eventId, user, action) => ReminderRuns.ApplyKeepsInv(y.s, eventId, user, action, y.now);
      case DoLeave(eventId, user) => ReminderRuns.LeaveKeepsInv(y.s, eventId, user, y.now);
      case DoRemove(eventId, user, online) => ReminderRuns.RemoveKeepsInv(y.s, eventId, user, online, y.now);
      case _ => WorkerKeepsReminders(y.s, y.lease, y.now);
    }
  }

  lemma {:induction false} RunKeepsReminders(ys: seq<System>, ops: seq<Op>, i: nat)
    requires Run(ys, ops) && i < |ys|
    ensures ReminderRuns.Inv(ys[i].s.db, ys[i].now) && Roster.Inv(ys[i].s)
  {
    RunKeepsRoster(ys, ops, i);
    if i > 0 {
      RunKeepsReminders(ys, ops, i - 1);
      assert Stepped(ys, ops, i - 1);
      StepKeepsReminders(ys[i - 1], ops[i - 1]);
    }
  }

  /** At most once: however often events are edited and wherever workers crash, the log of
      reminders never holds two entries for one number or one instant of an event, and
      none was written before its instant. */
  lemma RemindersAtMostOnce(ys: seq<System>, ops: seq<Op>, i: nat)
    requires Run(ys, ops) && i < |ys|
    ensures ReminderRuns.SentOnce(ys[i].s.db.logs)
    ensures forall l :: 0 <= l < |ys[i].s.db.logs| ==> ys[i].s.db.logs[l].scheduledFor <= ys[i].s.db.logs[l].sentAt
  {
    RunKeepsReminders(ys, ops, i);
    ReminderRuns.InvSentOnce(ys[i].s.db, ys[i].now);
    forall l | 0 <= l < |ys[i].s.db.logs|
      ensures ys[i].s.db.logs[l].scheduledFor <= ys[i].s.db.logs[l].sentAt
    {
      assert ReminderRuns.LogOk(ys[i].s.db.logs[l], ys[i].s.db.jobs);
    }
  }

  /** The pending reminders of this event are exactly what its policy asks for now. */
  ghost predicate Replanned(s: State, id: nat, now: int) {
    var found := GetEvent(s.db.events, id);
    && found.Some? && found.value.workspaceId in s.workspaces && Valid(found.value.policy)
    && var r := Schedule(found.value.policy, now, found.value.startsAt, s.workspaces[found.value.workspaceId].zone);
       r.Ok? && ReminderRuns.OnePerInstant(s.db.jobs, id, r.value)
  }

  lemma ScheduleReplans(s: State, ev: Event, now: int)
    requires ReminderRuns.Inv(s.db, now) && GetEvent(s.db.events, ev.id) == Some(ev) && ev.id < s.db.nextId
    requires ev.IsOpen() && ev.workspaceId in s.workspaces
    requires ScheduleReminders(s.db, s.workspaces[ev.workspaceId], ev, now).1.Ok?
    ensures Replanned(s.(db := ScheduleReminders(s.db, s.workspaces[ev.workspaceId], ev, now).0), ev.id, now)
  {
    var ws := s.workspaces[ev.workspaceId];
    ReminderRuns.PendingArePlanned(s.db, ws, ev, now);
    ReminderRuns.PlannedIsSchedule(s.db, ws, ev, now);
    Roster.ScheduleRemindersFrame(s.db, ws, ev, now);
  }

  /** Whenever an edit succeeds in a run, whatever was sent, canceled or left behind by a
      crash before, the pending reminders are one per instant the new policy wants. */
  lemma EditReplans(ys: seq<System>, ops: seq<Op>, i: nat)
    requires Run(ys, ops) && i < |ops| && ops[i].DoUpdate?
    requires Update(ys[i].s, ops[i].eventId, ops[i].update, ops[i].actor, ys[i].now).1.Ok?
    ensures Replanned(ys[i + 1].s, ops[i].eventId, ys[i].now)
  {
    RunKeepsReminders(ys, ops, i);
    assert Stepped(ys, ops, i);
    var s, now := ys[i].s, ys[i].now;
    var ev := GetEvent(s.db.events, ops[i].eventId).value;
    assert Roster.EventOk(ev, s);
    var next := Edited(ev, ops[i].update, now);
    GetAfterWrite(s.db.events, ev.id, Overwrite(next), ev.id);
    var s1 := s.(db := PutEvent(s.db, ev.id, Overwrite(next)));
    ReminderRuns.SameJobsKeepInv(s.db, s1.db, now);
    ScheduleReplans(s1, next, now);
  }

  ghost predicate EndsAt(job: Job, id: nat, at: int) {
    job.kind == AutoEnd && job.eventId == id && job.status == Pending && job.runAt == at
  }

  /** The event has an auto-end job waiting for the moment it is to end. */
  ghost predicate WillEnd(s: State, id: nat) {
    var found := GetEvent(s.db.events, id);
    && found.Some? && found.value.workspaceId in s.workspaces
    && var at := Edits.EndMoment(found.value.startsAt, found.value.endsAt, s.workspaces[found.value.workspaceId].autoEndGrace);
       exists i :: 0 <= i < |s.db.jobs| && EndsAt(s.db.jobs[i], id, at)
  }

  lemma AppendKeepsReminders(jobs: seq<Job>, job: Job, eventId: nat, times: seq<int>)
    requires ReminderRuns.OnePerInstant(jobs, eventId, times) && job.kind != Reminder
    ensures ReminderRuns.OnePerInstant(jobs + [job], eventId, times)
  {
    hide ReminderRuns.EachHasJob;
    MoreKeepEach(jobs, jobs + [job], eventId, times);
  }

  lemma MoreKeepEach(jobs: seq<Job>, jobs': seq<Job>, eventId: nat, times: seq<int>)
    requires ReminderRuns.EachHasJob(jobs, eventId, times) && jobs <= jobs'
    ensures ReminderRuns.EachHasJob(jobs', eventId, times)
  {
    forall k | 0 <= k < |times|
      ensures ReminderRuns.HasJobAt(jobs', eventId, times[k])
    {
      var i :| 0 <= i < |jobs| && ReminderRuns.DueAt(jobs[i], eventId, times[k]);
      assert jobs'[i] == jobs[i];
    }
  }

  lemma AutoEndAdded(s: State, ev: Event, now: int)
    requires Replanned(s, ev.id, now) && GetEvent(s.db.events, ev.id) == Some(ev) && ev.workspaceId in s.workspaces
    requires !HasKey(s.db.jobs, AutoEndKey(ev.id))
    ensures var job := NewAutoEndJob(ev.id, ev.AutoEndAt(s.workspaces[ev.workspaceId].autoEndGrace));
      var s' := s.(db := EnqueueJob(s.db, job, now));
      Replanned(s', ev.id, now) && WillEnd(s', ev.id)
  {
    var ws := s.workspaces[ev.workspaceId];
    var job := NewAutoEndJob(ev.id, ev.AutoEndAt(ws.autoEndGrace));
    var stored := Stored(job, s.db.nextId, now);
    AppendKeepsReminders(s.db.jobs, stored, ev.id, Schedule(ev.policy, now, ev.startsAt, ws.zone).value);
    assert EndsAt((s.db.jobs + [stored])[|s.db.jobs|], ev.id, job.runAt);
  }

  /** While an event has only reminders, its auto-end job cannot be a duplicate. */
  lemma NoAutoEndYet(db: Db, eventId: nat)
    requires JobShapes.Inv(db) && Lifecycle.OnlyReminders(db.jobs, eventId)
    ensures !HasKey(db.jobs, AutoEndKey(eventId))
  {
    forall i | 0 <= i < |db.jobs|
      ensures db.jobs[i].key != AutoEndKey(eventId)
    {
      assert JobShapes.Shaped(db.jobs[i]);
    }
  }

  lemma ProvisionPlans(s: State, input: CreateInput, ev: Event, now: int)
    requires ReminderRuns.Inv(s.db, now) && GetEvent(s.db.events, ev.id) == Some(ev) && ev.id < s.db.nextId
    requires ev.IsOpen() && ev.updatedAt == now && ev.workspaceId in s.workspaces && Lifecycle.Unused(s.db.jobs, ev.id)
    requires Provision(s, input, s.workspaces[ev.workspaceId], ev, now).1.Ok?
    ensures var (s', r) := Provision(s, input, s.workspaces[ev.workspaceId], ev, now);
      r.value == ev.id && Replanned(s', ev.id, now) && WillEnd(s', ev.id)
  {
    var ws := s.workspaces[ev.workspaceId];
    var (chat, made) := TryNames(s.chat, [input.name, input.name2, input.name3], [ev.organizer]);
    var ref := ChannelRef(Some(made.value.0), made.value.1, false);
    var ev1 := ev.(channel := ref);
    var s1 := s.(chat := chat, db := PutEvent(s.db, ev.id, SetChannel(ref, now)));
    GetAfterWrite(s.db.events, ev.id, SetChannel(ref, now), ev.id);
    ReminderRuns.SameJobsKeepInv(s.db, s1.db, now);
    ScheduleReplans(s1, ev1, now);
    ReminderRuns.ScheduleKeepsInv(s1.db, ws, ev1, now);
    Lifecycle.ScheduleRemindersOnly(s1.db, ws, ev1, now);
    Roster.ScheduleRemindersFrame(s1.db, ws, ev1, now);
    var s2 := s1.(db := ScheduleReminders(s1.db, ws, ev1, now).0);
    NoAutoEndYet(s2.db, ev.id);
    AutoEndAdded(s2, ev1, now);
  }

  lemma StoredWithOrganizer(s: State, ev: Event, now: int)
    requires ReminderRuns.Inv(s.db, now) && Roster.Inv(s) && ev.id == s.db.nextId && ev.workspaceId in s.workspaces
    requires ev.channel.id.None? && ev.participantCount == 0 && ev.updatedAt == now
    ensures var s' := Roster.WithOrganizer(s, ev, now);
      && GetEvent(s.db.events, ev.id).None?
      && ReminderRuns.Inv(s'.db, now) && ev.id < s'.db.nextId && s'.workspaces == s.workspaces
      && GetEvent(s'.db.events, ev.id) == Some(ev.(participantCount := 1))
      && Lifecycle.Unused(s'.db.jobs, ev.id)
  {
    Roster.FreshEventKeepsInv(s, ev);
    var s1 := Roster.WithEvent(s, ev);
    GetAfterWrite(s1.db.events, ev.id, CountBy(1, now), ev.id);
    ReminderRuns.SameJobsKeepInv(s.db, Roster.WithOrganizer(s, ev, now).db, now);
  }

  lemma CreatePlansEvent(s: State, input: CreateInput, now: int)
    requires ReminderRuns.Inv(s.db, now) && Roster.Inv(s) && Create(s, input, now).1.Ok?
    ensures var (s', r) := Create(s, input, now);
      GetEvent(s.db.events, r.value).None? && Replanned(s', r.value, now) && WillEnd(s', r.value)
  {
    hide Create, Provision, ScheduleReminders, FreshEvent, Valid, GetEvent, RegisterOrganizer, Roster.WithOrganizer;
    if Creations.Refusal(s, input, now).Some? {
      Creations.Refuses(s, input, now);
    }
    Creations.FreshIsAsked(s, input, now);
    var ev := FreshEvent(Params(input, s.workspaces[input.params.workspaceId]), s.db.nextId, now);
    StoredWithOrganizer(s, ev, now);
    Creations.IsProvisioned(s, input, now);
    ProvisionPlans(Roster.WithOrganizer(s, ev, now), input, ev.(participantCount := 1), now);
  }

  /** Whenever Create succeeds in a run, the new event has a pending reminder for each
      instant its policy wants and a pending job that ends it when it is to end. */
  lemma CreatePlans(ys: seq<System>, ops: seq<Op>, i: nat)
    requires Run(ys, ops) && i < |ops| && ops[i].DoCreate?
    requires Create(ys[i].s, ops[i].input, ys[i].now).1.Ok?
    ensures var id := Create(ys[i].s, ops[i].input, ys[i].now).1.value;
      && GetEvent(ys[i].s.db.events, id).None?
      && Replanned(ys[i + 1].s, id, ys[i].now) && WillEnd(ys[i + 1].s, id)
  {
    RunKeepsReminders(ys, ops, i);
    assert Stepped(ys, ops, i);
    CreatePlansEvent(ys[i].s, ops[i].input, ys[i].now);
  }

  /** Some pending auto-end job of the event runs no later than the event is to end. */
  ghost predicate EndsInTime(s: State, id: nat) {
    var found := GetEvent(s.db.events, id);
    && found.Some? && found.value.workspaceId in s.workspaces
    && var at := Edits.EndMoment(found.value.startsAt, found.value.endsAt, s.workspaces[found.value.workspaceId].autoEndGrace);
       exists k :: 0 <= k < |s.db.jobs| && PendingEnd(s.db.jobs[k], id) && s.db.jobs[k].runAt <= at
  }

  ghost predicate PendingEnd(job: Job, id: nat) {
    job.kind == AutoEnd && job.eventId == id && job.status == Pending
  }

  /** Regeneration leaves other jobs as they are and adds none but reminders. */
  ghost predicate OthersStay(jobs: seq<Job>, jobs': seq<Job>) {
    && |jobs| <= |jobs'|
    && (forall k :: 0 <= k < |jobs| && jobs[k].kind != Reminder ==> jobs'[k] == jobs[k])
    && (forall k :: 0 <= k < |jobs| && jobs[k].kind == Reminder ==> jobs'[k].kind == Reminder)
    && (forall k :: |jobs| <= k < |jobs'| ==> jobs'[k].kind == Reminder)
  }

  lemma {:induction false} EnqueueRemindersStay(db: Db, eventId: nat, sequence: int, times: seq<int>, now: int)
    ensures OthersStay(db.jobs, EnqueueReminders(db, eventId, sequence, times, now).jobs)
    decreases |times|
  {
    if times != [] {
      if SentAt(db.logs, eventId, times[0]) {
        EnqueueRemindersStay(db, eventId, sequence, times[1..], now);
      } else {
        EnqueueRemindersStay(EnqueueJob(db, NewReminderJob(eventId, sequence, times[0]), now), eventId, sequence + 1, times[1..], now);
      }
    }
  }

  lemma CancelStays(jobs: seq<Job>, eventId: nat, now: int)
    ensures OthersStay(jobs, CancelByEvent(jobs, eventId, [Reminder], now))
  {
  }

  lemma StaysTransitive(a: seq<Job>, b: seq<Job>, c: seq<Job>)
    requires OthersStay(a, b) && OthersStay(b, c) && |a| == |b|
    ensures OthersStay(a, c)
  {
  }

  lemma ScheduleStays(db: Db, ws: Settings, ev: Event, now: int)
    ensures OthersStay(db.jobs, ScheduleReminders(db, ws, ev, now).0.jobs)
  {
    var db1 := CancelJobs(db, ev.id, [Reminder], now);
    CancelStays(db.jobs, ev.id, now);
    match Times(ev, ws.zone, now) {
      case Err(_) =>
      case Ok(times) =>
        var sequence := HighestSequence(db1.jobs, ev.id) + 1;
        EnqueueRemindersStay(db1, ev.id, sequence, times, now);
        StaysTransitive(db.jobs, db1.jobs, EnqueueReminders(db1, ev.id, sequence, times, now).jobs);
    }
  }

  /** An edit does not touch the auto-end job: afterwards the event ends in time exactly when
      its new end is not before the moment that job was already to run. */
  lemma EditEndsInTimeIff(ys: seq<System>, ops: seq<Op>, i: nat, k: nat)
    requires Run(ys, ops) && i < |ops| && ops[i].DoUpdate?
    requires Update(ys[i].s, ops[i].eventId, ops[i].update, ops[i].actor, ys[i].now).1.Ok?
    requires k < |ys[i].s.db.jobs| && PendingEnd(ys[i].s.db.jobs[k], ops[i].eventId)
    ensures var s := ys[i].s; var ev := GetEvent(s.db.events, ops[i].eventId);
      && ev.Some? && ev.value.workspaceId in s.workspaces
      && (EndsInTime(ys[i + 1].s, ops[i].eventId) <==>
          s.db.jobs[k].runAt <= Edits.EndMoment(Edits.NewStart(ev.value, ops[i].update), Edits.NewEnd(ev.value, ops[i].update),
                                                s.workspaces[ev.value.workspaceId].autoEndGrace))
  {
    RunKeepsReminders(ys, ops, i);
    assert Stepped(ys, ops, i);
    EditKeepsAutoEnd(ys[i].s, ops[i].eventId, ops[i].update, ops[i].actor, ys[i].now, k);
  }

  lemma EditKeepsAutoEnd(s: State, id: nat, u: EventUpdate, actor: Actor, now: int, k: nat)
    requires JobShapes.Inv(s.db) && Update(s, id, u, actor, now).1.Ok? && k < |s.db.jobs| && PendingEnd(s.db.jobs[k], id)
    ensures var ev := GetEvent(s.db.events, id);
      && ev.Some? && ev.value.workspaceId in s.workspaces
      && (EndsInTime(Update(s, id, u, actor, now).0, id) <==>
          s.db.jobs[k].runAt <= Edited(ev.value, u, now).AutoEndAt(s.workspaces[ev.value.workspaceId].autoEndGrace))
  {
    var ev := GetEvent(s.db.events, id).value;
    var ws, next := s.workspaces[ev.workspaceId], Edited(ev, u, now);
    var db1 := PutEvent(s.db, id, Overwrite(next));
    var s' := Update(s, id, u, actor, now).0;
    GetAfterWrite(s.db.events, id, Overwrite(next), id);
    Roster.ScheduleRemindersFrame(db1, ws, next, now);
    ScheduleStays(db1, ws, next, now);
    OneEnd(s, s', id, k, next.AutoEndAt(ws.autoEndGrace));
  }

  lemma OneEnd(s: State, s': State, id: nat, k: nat, at: int)
    requires JobShapes.Inv(s.db) && k < |s.db.jobs| && PendingEnd(s.db.jobs[k], id) && OthersStay(s.db.jobs, s'.db.jobs)
    requires var found := GetEvent(s'.db.events, id);
      && found.Some? && found.value.workspaceId in s'.workspaces
      && at == found.value.AutoEndAt(s'.workspaces[found.value.workspaceId].autoEndGrace)
    ensures EndsInTime(s', id) <==> s.db.jobs[k].runAt <= at
  {
    assert s'.db.jobs[k] == s.db.jobs[k];
    forall j | 0 <= j < |s'.db.jobs| && PendingEnd(s'.db.jobs[j], id)
      ensures j == k
    {
      assert JobShapes.Shaped(s.db.jobs[j]) && JobShapes.Shaped(s.db.jobs[k]);
    }
  }

  // ----- the life of an event, crashes included

  ghost predicate Shapes(s: State) {
    forall id: nat :: GetEvent(s.db.events, id).Some? ==> Lifecycle.EventShape(GetEvent(s.db.events, id).value, s.workspaces)
  }

  /** A closed event keeps its dates, status, end and reason; an open one stays well formed. */
  ghost predicate Lived(a: Option<Event>, b: Option<Event>, workspaces: map<nat, Settings>) {
    if a.Some? && !a.value.IsOpen() then Lifecycle.SameLife(a, b)
    else b.Some? ==> Lifecycle.EventShape(b.value, workspaces)
  }

  ghost predicate Progress(s: State, s': State) {
    && s'.workspaces == s.workspaces
    && forall id: nat :: Lived(GetEvent(s.db.events, id), GetEvent(s'.db.events, id), s.workspaces)
  }

  lemma ProgressKeepsShapes(s: State, s': State)
    requires Shapes(s) && Progress(s, s')
    ensures Shapes(s')
  {
    forall id: nat | GetEvent(s'.db.events, id).Some?
      ensures Lifecycle.EventShape(GetEvent(s'.db.events, id).value, s'.workspaces)
    {
      assert Lived(GetEvent(s.db.events, id), GetEvent(s'.db.events, id), s.workspaces);
    }
  }

  lemma ProgressTransitive(s: State, s': State, s'': State)
    requires Progress(s, s') && Progress(s', s'')
    ensures Progress(s, s'')
  {
    forall id: nat
      ensures Lived(GetEvent(s.db.events, id), GetEvent(s''.db.events, id), s.workspaces)
    {
      assert Lived(GetEvent(s.db.events, id), GetEvent(s'.db.events, id), s.workspaces);
      assert Lived(GetEvent(s'.db.events, id), GetEvent(s''.db.events, id), s.workspaces);
    }
  }

  lemma SameEventsProgress(s: State, s': State)
    requires Shapes(s) && s'.workspaces == s.workspaces && s'.db.events == s.db.events
    ensures Progress(s, s')
  {
  }

  /** Writing one event: a closed one only its channel and counter, an open one anything
      well formed. */
  lemma WriteProgresses(s: State, s': State, id: nat, write: EventWrite)
    requires Shapes(s) && s'.workspaces == s.workspaces && s'.db.events == WriteEvent(s.db.events, id, write)
    requires write.Overwrite? ==>
               Lifecycle.OpenIn(s.db.events, id)
               && Lifecycle.EventShape(Overwritten(GetEvent(s.db.events, id).value, write.ev), s.workspaces)
    ensures Progress(s, s')
  {
    forall other: nat
      ensures Lived(GetEvent(s.db.events, other), GetEvent(s'.db.events, other), s.workspaces)
    {
      GetAfterWrite(s.db.events, id, write, other);
    }
  }

  lemma UpdateProgresses(s: State, eventId: nat, u: EventUpdate, actor: Actor, now: int)
    requires Shapes(s)
    ensures Progress(s, Update(s, eventId, u, actor, now).0)
  {
    var s' := Update(s, eventId, u, actor, now).0;
    var found := GetEvent(s.db.events, eventId);
    if found.Some? && found.value.IsOpen() && MayManage(found.value, actor) && ValidEdit(found.value, u, now)
       && found.value.workspaceId in s.workspaces {
      var next := Edited(found.value, u, now);
      Roster.ScheduleRemindersFrame(PutEvent(s.db, eventId, Overwrite(next)), s.workspaces[found.value.workspaceId], next, now);
      WriteProgresses(s, s', eventId, Overwrite(next));
    } else {
      SameEventsProgress(s, s');
    }
  }

  lemma CloseProgresses(s: State, eventId: nat, reason: EndReason, actor: Actor, now: int)
    requires Shapes(s)
    requires reason == Auto && Lifecycle.OpenIn(s.db.events, eventId) ==>
               var ev := GetEvent(s.db.events, eventId).value;
               ev.AutoEndAt(s.workspaces[ev.workspaceId].autoEndGrace) <= now
    ensures Progress(s, Close(s, eventId, reason, actor, now).0)
  {
    var s' := Close(s, eventId, reason, actor, now).0;
    var found := GetEvent(s.db.events, eventId);
    if found.Some? && found.value.IsOpen() && MayManage(found.value, actor) {
      WriteProgresses(s, s', eventId, Overwrite(Closed(found.value, CloseStatus(reason), reason, now)));
    } else {
      SameEventsProgress(s, s');
    }
  }

  lemma ArchiveProgresses(s: State, eventId: nat, now: int)
    requires Shapes(s)
    ensures Progress(s, ArchiveChannel(s, eventId, now).0)
  {
    var s' := ArchiveChannel(s, eventId, now).0;
    var found := GetEvent(s.db.events, eventId);
    if found.Some? && s'.db.events != s.db.events {
      WriteProgresses(s, s', eventId, SetChannel(found.value.channel.(archived := true), now));
    } else {
      SameEventsProgress(s, s');
    }
  }

  lemma ApplyProgresses(s: State, eventId: nat, user: string, action: Action, now: int)
    requires Shapes(s) && Roster.Inv(s) && user != s.chat.bot
    ensures Progress(s, Apply(s, eventId, user, action, now).0)
    ensures NoNewExpired(s.db.parts, Apply(s, eventId, user, action, now).0.db.parts)
  {
    var s' := Apply(s, eventId, user, action, now).0;
    SameEventsProgress(s, s);
    match OpenEvent(s, eventId) {
      case Err(_) =>
      case Ok((ev, ws)) =>
        var t := DecideTransition(At(s.db.parts, FindUser(s.db.parts, eventId, user)), action);
        if t.addToChannel || t.cancelPeekJob {
          Roster.AddMemberMoves(s, ev, user);
          Roster.PressRunsThrough(s, ev, ws, user, action, t, now);
          var (db, _, after) := UpsertPart(s.db, Roster.EntryOf(ev, ws, user, t, now), now);
          Roster.AfterTransitionFrame(db, ev, after, t, now);
          if t.role == Participant {
            WriteProgresses(s, s', ev.id, CountBy(1, now));
          } else {
            SameEventsProgress(s, s');
          }
        }
    }
  }

  lemma DetachProgresses(s: State, ev: Event, i: nat, status: Standing, now: int)
    requires Shapes(s) && Roster.Inv(s) && i < |s.db.parts|
    requires GetEvent(s.db.events, ev.id) == Some(ev) && s.db.parts[i].eventId == ev.id
    ensures Progress(s, Detach(s, ev, s.db.parts[i], status, now).0)
    ensures Detach(s, ev, s.db.parts[i], status, now).0.db.parts == s.db.parts[i := WithStatus(s.db.parts[i], status, now)]
  {
    var part := s.db.parts[i];
    Roster.SameRecord(s.db.parts, s.db.nextId, s.chat.bot, i);
    Roster.RemoveMemberMoves(s, ev, part.userId);
    Roster.DetachRunsThrough(s, ev, part, status, now);
    var s' := Detach(s, ev, part, status, now).0;
    if part.role == Participant {
      WriteProgresses(s, s', ev.id, CountBy(-1, now));
    } else {
      SameEventsProgress(s, s');
    }
  }

  lemma LeaveProgresses(s: State, eventId: nat, user: string, now: int)
    requires Shapes(s) && Roster.Inv(s)
    ensures Progress(s, Leave(s, eventId, user, now).0)
    ensures NoNewExpired(s.db.parts, Leave(s, eventId, user, now).0.db.parts)
  {
    SameEventsProgress(s, s);
    var i := FindUser(s.db.parts, eventId, user);
    if OpenEvent(s, eventId).Ok? && i.Some? {
      DetachProgresses(s, OpenEvent(s, eventId).value.0, i.value, Left, now);
    }
  }

  lemma RemoveProgresses(s: State, eventId: nat, user: string, online: bool, now: int)
    requires Shapes(s) && Roster.Inv(s)
    ensures Progress(s, Remove(s, eventId, user, online, now).0)
    ensures NoNewExpired(s.db.parts, Remove(s, eventId, user, online, now).0.db.parts)
  {
    SameEventsProgress(s, s);
    var i := FindUser(s.db.parts, eventId, user);
    if OpenEvent(s, eventId).Ok? && i.Some? {
      DetachProgresses(s, OpenEvent(s, eventId).value.0, i.value, Removed, now);
    }
  }

  lemma AbortProgresses(s: State, ev: Event, now: int)
    requires Shapes(s) && ev.IsOpen() && Lifecycle.SameLife(Some(ev), GetEvent(s.db.events, ev.id))
    ensures Progress(s, s.(db := AbortProvision(s.db, ev, now)))
    ensures AbortProvision(s.db, ev, now).parts == s.db.parts
  {
    WriteProgresses(s, s.(db := AbortProvision(s.db, ev, now)), ev.id, Overwrite(Closed(ev, CanceledEvent, ProvisionFailed, now)));
  }

  lemma ProvisionProgresses(s: State, input: CreateInput, ws: Settings, ev: Event, now: int)
    requires Shapes(s) && ev.IsOpen() && Lifecycle.SameLife(Some(ev), GetEvent(s.db.events, ev.id))
    ensures Progress(s, Provision(s, input, ws, ev, now).0)
    ensures Provision(s, input, ws, ev, now).0.db.parts == s.db.parts
  {
    match TryNames(s.chat, [input.name, input.name2, input.name3], [ev.organizer]) {
      case (_, Err(e)) => AbortProgresses(s, ev, now);
      case (chat, Ok((c, name))) =>
        var ref := ChannelRef(Some(c), name, false);
        var ev1 := ev.(channel := ref);
        var s1 := s.(chat := chat, db := PutEvent(s.db, ev.id, SetChannel(ref, now)));
        WriteProgresses(s, s1, ev.id, SetChannel(ref, now));
        GetAfterWrite(s.db.events, ev.id, SetChannel(ref, now), ev.id);
        ProgressKeepsShapes(s, s1);
        var s2 := Provision(s, input, ws, ev, now).0;
        if !input.posts {
          AbortProgresses(s1, ev1, now);
        } else {
          Roster.ScheduleRemindersFrame(s1.db, ws, ev1, now);
          SameEventsProgress(s1, s2);
        }
        ProgressTransitive(s, s1, s2);
    }
  }

  lemma CreateProgresses(s: State, input: CreateInput, now: int)
    requires Shapes(s) && Roster.Inv(s) && input.params.organizer != s.chat.bot
    ensures Progress(s, Create(s, input, now).0)
    ensures NoNewExpired(s.db.parts, Create(s, input, now).0.db.parts)
  {
    SameEventsProgress(s, s);
    if input.online && input.params.workspaceId in s.workspaces {
      var ws := s.workspaces[input.params.workspaceId];
      if ValidNewEvent(Params(input, ws), now) {
        var ev := FreshEvent(Params(input, ws), s.db.nextId, now);
        var s1 := Roster.WithEvent(s, ev);
        Roster.FreshEventKeepsInv(s, ev);
        forall id: nat
          ensures Lived(GetEvent(s.db.events, id), GetEvent(s1.db.events, id), s.workspaces)
        {
          GetAfterAppend(s.db.events, ev, id);
        }
        ProgressKeepsShapes(s, s1);
        var s2 := s1.(db := RegisterOrganizer(s1.db, ev, now));
        WriteProgresses(s1, s2, ev.id, CountBy(1, now));
        ProgressKeepsShapes(s1, s2);
        ProgressTransitive(s, s1, s2);
        GetAfterWrite(s1.db.events, ev.id, CountBy(1, now), ev.id);
        ProvisionProgresses(s2, input, ws, ev.(participantCount := 1), now);
        ProgressTransitive(s, s2, Create(s, input, now).0);
      }
    }
  }

  lemma HandleProgresses(s: State, job: Job, now: int)
    requires Shapes(s) && Roster.Inv(s)
    ensures Progress(s, Handle(s, job, now).0)
  {
    match job.kind {
      case PeekExpire => PeekProgresses(s, job, now);
      case AutoEnd =>
        var found := GetEvent(s.db.events, job.payload.eventId);
        SameEventsProgress(s, s);
        if found.Some? && found.value.IsOpen() && found.value.workspaceId in s.workspaces {
          var at := found.value.AutoEndAt(s.workspaces[found.value.workspaceId].autoEndGrace);
          if at > now {
            SameEventsProgress(s, RescheduleJob(s, job, at, now).0);
          } else {
            CloseProgresses(s, found.value.id, Auto, Actor("", true), now);
          }
        }
      case Archive => ArchiveProgresses(s, job.payload.eventId, now);
      case _ => SameEventsProgress(s, Handle(s, job, now).0);
    }
  }

  lemma PeekProgresses(s: State, job: Job, now: int)
    requires Shapes(s) && Roster.Inv(s)
    ensures Progress(s, HandlePeekExpire(s, job, now).0)
  {
    SameEventsProgress(s, s);
    var i := FindId(s.db.parts, job.payload.participationId);
    if i.Some? {
      var part := s.db.parts[i.value];
      if part.expiresAt.Some? {
        SameEventsProgress(s, RescheduleJob(s, job, part.expiresAt.value, now).0);
      }
      var ev := GetEvent(s.db.events, part.eventId);
      if ev.Some? && Peeks.Peeking(part) {
        DetachProgresses(s, ev.value, i.value, Expired, now);
        Roster.DetachKeepsInv(s, ev.value, i.value, Expired, now);
      }
    }
  }

  lemma WorkerProgresses(s: State, lease: int, now: int)
    requires Shapes(s) && Roster.Inv(s)
    ensures Progress(s, RunJob(s, lease, now)) && Progress(s, ClaimJob(s, lease, now).0)
    ensures Progress(s, HandleUnwritten(s, lease, now))
  {
    var s1 := ClaimJob(s, lease, now).0;
    SameEventsProgress(s, s1);
    match ClaimJob(s, lease, now).1 {
      case None =>
      case Some(job) =>
        Roster.JobsKeepInv(s, s1.db.jobs);
        HandleProgresses(s1, job, now);
        var s2 := Handle(s1, job, now).0;
        ProgressTransitive(s, s1, s2);
        ProgressKeepsShapes(s, s2);
        SameEventsProgress(s, WriteJob(s1, job.id, Fail("max attempts exceeded"), now));
        SameEventsProgress(s2, WriteHandled(s2, job, Handle(s1, job, now).1, now));
        ProgressTransitive(s, s2, WriteHandled(s2, job, Handle(s1, job, now).1, now));
    }
  }

  lemma StepProgresses(y: System, op: Op)
    requires Shapes(y.s) && Roster.Inv(y.s) && Allowed(y, op)
    ensures Progress(y.s, Step(y, op).s)
  {
    match op {
      case Tick(to) => SameEventsProgress(y.s, y.s);
      case DoCreate(input) => CreateProgresses(y.s, input, y.now);
      case DoUpdate(eventId, u, actor) => UpdateProgresses(y.s, eventId, u, actor, y.now);
      case DoClose(eventId, reason, actor) => CloseProgresses(y.s, eventId, reason, actor, y.now);
      case DoApply(eventId, user, action) => ApplyProgresses(y.s, eventId, user, action, y.now);
      case DoLeave(eventId, user) => LeaveProgresses(y.s, eventId, user, y.now);
      case DoRemove(eventId, user, online) => RemoveProgresses(y.s, eventId, user, online, y.now);
      case _ => WorkerProgresses(y.s, y.lease, y.now);
    }
  }

  lemma {:induction false} RunKeepsShapes(ys: seq<System>, ops: seq<Op>, i: nat)
    requires Run(ys, ops) && i < |ys|
    ensures Shapes(ys[i].s)
  {
    if i == 0 {
      InitiallyEmpty(ys[0]);
    } else {
      RunKeepsShapes(ys, ops, i - 1);
      RunKeepsRoster(ys, ops, i - 1);
      assert Stepped(ys, ops, i - 1);
      StepKeepsShapes(ys[i - 1], ops[i - 1], ys[i]);
    }
  }

  /** Without crashes, on top of the roster. */
  ghost predicate Living(y: System) {
    Lifecycle.Inv(y.s, y.created, None) && Peeks.PeekInv(y.s, y.stranded, None)
  }

  lemma InitiallyEmpty(y: System)
    requires Initial(y)
    ensures Shapes(y.s) && Living(y)
  {
  }

  lemma StepKeepsShapes(y: System, op: Op, y': System)
    requires Shapes(y.s) && Roster.Inv(y.s) && Allowed(y, op) && y' == Step(y, op)
    ensures Shapes(y'.s)
  {
    StepProgresses(y, op);
    ProgressKeepsShapes(y.s, y'.s);
  }

  /** In every reachable state an event says when and why it ended exactly when it is
      closed, it ends after it starts, and an automatic end was not early: it came at or
      after the moment it was due, however often that moment was postponed. */
  lemma EndedIffClosed(ys: seq<System>, ops: seq<Op>, i: nat, id: nat)
    requires Run(ys, ops) && i < |ys| && GetEvent(ys[i].s.db.events, id).Some?
    ensures var ev := GetEvent(ys[i].s.db.events, id).value;
      && (ev.endedAt.Some? <==> !ev.IsOpen()) && (ev.endReason.Some? <==> !ev.IsOpen())
      && (ev.endsAt.Some? ==> ev.endsAt.value > ev.startsAt)
      && ev.workspaceId in ys[i].s.workspaces
      && (ev.endReason == Some(Auto) ==>
            Edits.EndMoment(ev.startsAt, ev.endsAt, ys[i].s.workspaces[ev.workspaceId].autoEndGrace) <= ev.endedAt.value)
  {
    RunKeepsShapes(ys, ops, i);
    assert Lifecycle.EventShape(GetEvent(ys[i].s.db.events, id).value, ys[i].s.workspaces);
  }

  /** Closing is final: a closed event keeps its status, end, reason and dates forever. */
  lemma {:induction false} ClosedForever(ys: seq<System>, ops: seq<Op>, i: nat, j: nat, id: nat)
    requires Run(ys, ops) && i <= j < |ys|
    requires GetEvent(ys[i].s.db.events, id).Some? && !GetEvent(ys[i].s.db.events, id).value.IsOpen()
    ensures Lifecycle.SameLife(GetEvent(ys[i].s.db.events, id), GetEvent(ys[j].s.db.events, id))
  {
    if i < j {
      ClosedForever(ys, ops, i, j - 1, id);
      RunKeepsShapes(ys, ops, j - 1);
      RunKeepsRoster(ys, ops, j - 1);
      assert Stepped(ys, ops, j - 1);
      StepProgresses(ys[j - 1], ops[j - 1]);
      assert Lived(GetEvent(ys[j - 1].s.db.events, id), GetEvent(ys[j].s.db.events, id), ys[j - 1].s.workspaces);
    }
  }

  /** Closing twice is closing once, whoever asks again, whenever and with whatever reason. */
  lemma CloseIsIdempotent(s: State, eventId: nat, reason: EndReason, actor: Actor, now: int,
                          again: EndReason, other: Actor, later: int)
    requires Close(s, eventId, reason, actor, now).1.Ok?
    ensures var s' := Close(s, eventId, reason, actor, now).0;
            Close(s', eventId, again, other, later).0 == s'
  {
    Lifecycle.CloseCloses(s, eventId, reason, actor, now);
  }

  // ----- no peek is expired early, crashes included

  ghost predicate NoNewExpired(parts: seq<Participation>, parts': seq<Participation>) {
    && |parts| <= |parts'|
    && forall k :: 0 <= k < |parts| && parts'[k].status == Expired ==> parts[k].status == Expired
  }

  /** A record expires only while it is an active peek whose time has come. */
  ghost predicate ExpiredInTime(parts: seq<Participation>, parts': seq<Participation>, now: int) {
    && |parts| <= |parts'|
    && forall k :: 0 <= k < |parts| && parts'[k].status == Expired && parts[k].status != Expired ==>
         Peeks.Peeking(parts[k]) && parts[k].expiresAt.Some? && parts[k].expiresAt.value <= now
  }

  lemma HandleExpiresInTime(s: State, job: Job, now: int)
    requires Shapes(s) && Roster.Inv(s)
    ensures ExpiredInTime(s.db.parts, Handle(s, job, now).0.db.parts, now)
  {
    if job.kind == PeekExpire {
      var id := job.payload.participationId;
      var parts' := ExpirePeek(s, id, now).0.db.parts;
      var i := FindId(s.db.parts, id);
      if i.Some? && Peeks.Peeking(s.db.parts[i.value]) {
        var ev := GetEvent(s.db.events, s.db.parts[i.value].eventId);
        if ev.Some? {
          DetachProgresses(s, ev.value, i.value, Expired, now);
        }
      }
      assert |parts'| == |s.db.parts|;
      forall k | 0 <= k < |s.db.parts| && parts'[k].status == Expired && s.db.parts[k].status != Expired
        ensures Peeks.Peeking(s.db.parts[k]) && s.db.parts[k].expiresAt.Some? && s.db.parts[k].expiresAt.value <= now
      {
        Peeks.NeverEarly(s, id, now, k);
      }
    }
  }

  lemma StepExpiresInTime(y: System, op: Op)
    requires Shapes(y.s) && Roster.Inv(y.s) && Allowed(y, op)
    ensures ExpiredInTime(y.s.db.parts, Step(y, op).s.db.parts, y.now)
  {
    match op {
      case Tick(_) =>
      case DoCreate(input) => CreateProgresses(y.s, input, y.now);
      case DoUpdate(eventId, u, actor) => UpdateKeepsParts(y.s, eventId, u, actor, y.now);
      case DoClose(_, _, _) =>
      case DoApply(eventId, user, action) => ApplyProgresses(y.s, eventId, user, action, y.now);
      case DoLeave(eventId, user) => LeaveProgresses(y.s, eventId, user, y.now);
      case DoRemove(eventId, user, online) => RemoveProgresses(y.s, eventId, user, online, y.now);
      case _ =>
        var s1 := ClaimJob(y.s, y.lease, y.now).0;
        match ClaimJob(y.s, y.lease, y.now).1 {
          case None =>
          case Some(job) =>
            Roster.JobsKeepInv(y.s, s1.db.jobs);
            HandleExpiresInTime(s1, job, y.now);
        }
    }
  }

  lemma UpdateKeepsParts(s: State, eventId: nat, u: EventUpdate, actor: Actor, now: int)
    ensures Update(s, eventId, u, actor, now).0.db.parts == s.db.parts
  {
    var found := GetEvent(s.db.events, eventId);
    if found.Some? && found.value.workspaceId in s.workspaces {
      var next := Edited(found.value, u, now);
      Roster.ScheduleRemindersFrame(PutEvent(s.db, eventId, Overwrite(next)), s.workspaces[found.value.workspaceId], next, now);
    }
  }

  /** No peeker is expired before the moment the peek was to expire. */
  lemma PeeksNeverEarly(ys: seq<System>, ops: seq<Op>, i: nat)
    requires Run(ys, ops) && i < |ops|
    ensures ExpiredInTime(ys[i].s.db.parts, ys[i + 1].s.db.parts, ys[i].now)
  {
    RunKeepsShapes(ys, ops, i);
    RunKeepsRoster(ys, ops, i);
    assert Stepped(ys, ops, i);
    StepExpiresInTime(ys[i], ops[i]);
  }

  // ----- crash-free runs

  ghost predicate PendingExpiry(job: Job, id: nat, at: int) {
    job.kind == PeekExpire && job.status == Pending && job.payload.participationId == id && job.runAt <= at
  }

  /** An expiry job of this record waits, and runs no later than `at`. */
  ghost predicate ExpiryPending(jobs: seq<Job>, id: nat, at: int) {
    exists j :: 0 <= j < |jobs| && PendingExpiry(jobs[j], id, at)
  }

  lemma NobodyAtWork(s: State, created: set<nat>)
    requires Lifecycle.Inv(s, created, None)
    ensures Peeks.Idle(s.db.jobs)
  {
    forall i | 0 <= i < |s.db.jobs|
      ensures s.db.jobs[i].status != Running
    {
      assert Lifecycle.JobOk(s.db.jobs[i], s.db.events, None);
    }
  }

  lemma StepKeepsLife(y: System, op: Op)
    requires Lifecycle.Inv(y.s, y.created, None) && Peeks.PeekInv(y.s, y.stranded, None) && Roster.Inv(y.s)
    requires Allowed(y, op) && CrashFree(op)
    ensures Lifecycle.Inv(Step(y, op).s, Step(y, op).created, None)
    ensures Peeks.PeekInv(Step(y, op).s, Step(y, op).stranded, None)
  {
    match op {
      case Tick(_) =>
      case DoCreate(input) =>
        Lifecycle.CreateKeepsInv(y.s, input, y.now, y.created);
        Peeks.CreateKeepsPeeks(y.s, input, y.now, y.stranded);
      case DoUpdate(eventId, u, actor) =>
        Lifecycle.UpdateKeepsInv(y.s, eventId, u, actor, y.now, y.created);
        Peeks.UpdateKeepsPeeks(y.s, eventId, u, actor, y.now, y.stranded);
      case DoClose(eventId, reason, actor) =>
        Lifecycle.CloseKeepsInv(y.s, eventId, reason, actor, y.now, y.created, None);
        Peeks.CloseKeepsPeeks(y.s, eventId, reason, actor, y.now, y.stranded, None);
      case DoApply(eventId, user, action) =>
        Lifecycle.ApplyKeepsInv(y.s, eventId, user, action, y.now, y.created);
        NobodyAtWork(y.s, y.created);
        var (s', r) := Apply(y.s, eventId, user, action, y.now);
        Peeks.ApplyKeepsPeeks(y.s, s', r, eventId, user, action, y.now, y.stranded);
      case DoLeave(eventId, user) =>
        Lifecycle.LeaveKeepsInv(y.s, eventId, user, y.now, y.created);
        Peeks.LeaveKeepsPeeks(y.s, eventId, user, y.now, y.stranded);
      case DoRemove(eventId, user, online) =>
        Lifecycle.RemoveKeepsInv(y.s, eventId, user, online, y.now, y.created);
        Peeks.RemoveKeepsPeeks(y.s, eventId, user, online, y.now, y.stranded);
      case DoJob =>
        Lifecycle.JobKeepsInv(y.s, y.lease, y.now, y.created);
        Peeks.JobKeepsPeeks(y.s, y.lease, y.now, y.created, y.stranded);
    }
  }

  lemma {:induction false} RunKeepsLife(ys: seq<System>, ops: seq<Op>, i: nat)
    requires Run(ys, ops) && NoCrash(ops) && i < |ys|
    ensures Living(ys[i])
  {
    if i == 0 {
      InitiallyEmpty(ys[0]);
    } else {
      RunKeepsLife(ys, ops, i - 1);
      RunKeepsRoster(ys, ops, i - 1);
      assert Stepped(ys, ops, i - 1) && CrashFree(ops[i - 1]);
      StepKeepsLife(ys[i - 1], ops[i - 1]);
    }
  }

  /** At most one job of this kind was ever stored for this event. */
  ghost predicate OnlyOne(jobs: seq<Job>, kind: Kind, id: nat) {
    forall j, k :: 0 <= j < k < |jobs| && jobs[j].kind == kind == jobs[k].kind ==>
      !(jobs[j].eventId == id == jobs[k].eventId)
  }

  /** Closing is clean: without crashes a closed event has nothing waiting but the archiving
      of its channel, and that at most once ever. */
  lemma ClosedIsClean(ys: seq<System>, ops: seq<Op>, i: nat, id: nat)
    requires Run(ys, ops) && NoCrash(ops) && i < |ys| && !Lifecycle.OpenIn(ys[i].s.db.events, id)
    ensures forall j :: 0 <= j < |ys[i].s.db.jobs| && ys[i].s.db.jobs[j].eventId == id && ys[i].s.db.jobs[j].Live() ==>
              ys[i].s.db.jobs[j].kind == Archive
    ensures OnlyOne(ys[i].s.db.jobs, Archive, id)
  {
    RunKeepsLife(ys, ops, i);
    var s := ys[i].s;
    forall j | 0 <= j < |s.db.jobs|
      ensures s.db.jobs[j].eventId == id && s.db.jobs[j].Live() ==> s.db.jobs[j].kind == Archive
      ensures JobShapes.Shaped(s.db.jobs[j])
    {
      assert Lifecycle.JobOk(s.db.jobs[j], s.db.events, None);
    }
  }

  /** Auto-end is never lost: without crashes every open event whose Create succeeded has
      exactly one auto-end job, and it is pending. */
  lemma AutoEndNeverLost(ys: seq<System>, ops: seq<Op>, i: nat, id: nat)
    requires Run(ys, ops) && NoCrash(ops) && i < |ys| && id in ys[i].created && Lifecycle.OpenIn(ys[i].s.db.events, id)
    ensures exists j :: 0 <= j < |ys[i].s.db.jobs| && ys[i].s.db.jobs[j].kind == AutoEnd
              && ys[i].s.db.jobs[j].eventId == id && ys[i].s.db.jobs[j].status == Pending
    ensures OnlyOne(ys[i].s.db.jobs, AutoEnd, id)
  {
    RunKeepsLife(ys, ops, i);
    var s := ys[i].s;
    assert Lifecycle.HasAutoEnd(s.db.jobs, id, None);
    var j :| 0 <= j < |s.db.jobs| && s.db.jobs[j].kind == AutoEnd && s.db.jobs[j].eventId == id
             && Lifecycle.Alive(s.db.jobs[j], None);
    assert s.db.jobs[j].status == Pending;
    forall k | 0 <= k < |s.db.jobs|
      ensures JobShapes.Shaped(s.db.jobs[k])
    {
    }
  }

  /** Whoever is let in to peek in such a run gets a job due at exactly the end of the peek. */
  lemma PeekPlansExpiry(ys: seq<System>, ops: seq<Op>, i: nat)
    requires Run(ys, ops) && NoCrash(ops) && i < |ops| && ops[i].DoApply? && ops[i].action == Peek
    requires !Buttons.Present(Outcomes.RecordOf(ys[i].s, ops[i].eventId, ops[i].user))
    requires Outcomes.ClosedTo(ys[i].s, ops[i].eventId).None?
    ensures Buttons.ExpiryWaits(ys[i].s, ys[i + 1].s, ops[i].eventId, ops[i].user, ys[i].now)
  {
    RunKeepsLife(ys, ops, i);
    RunKeepsRoster(ys, ops, i);
    assert Stepped(ys, ops, i);
    var (s', r) := Apply(ys[i].s, ops[i].eventId, ops[i].user, Peek, ys[i].now);
    Buttons.PressOutcome(ys[i].s, s', r, ops[i].eventId, ops[i].user, Peek, ys[i].now);
    Buttons.PeekIsDue(ys[i].s, s', r, ops[i].eventId, ops[i].user, ys[i].now, ys[i].stranded);
  }

  /** Without crashes an active peeker of an open event has a pending expiry job, due no later
      than the peek expires, exactly unless the last thing to happen to the peek was the
      promotion of somebody else; then no expiry job of this record is left at all. Expiry
      jobs never carry a count their record has not reached. */
  lemma PeeksNeverLost(ys: seq<System>, ops: seq<Op>, i: nat, k: nat)
    requires Run(ys, ops) && NoCrash(ops) && i < |ys| && k < |ys[i].s.db.parts|
    ensures var s := ys[i].s; var part := s.db.parts[k];
      forall j :: 0 <= j < |s.db.jobs| && s.db.jobs[j].kind == PeekExpire && s.db.jobs[j].payload.participationId == part.id ==>
        s.db.jobs[j].key.PeekKey? && s.db.jobs[j].key.count <= part.peekCount
    ensures var s := ys[i].s; var part := s.db.parts[k];
      Peeks.Peeking(part) && Lifecycle.OpenIn(s.db.events, part.eventId) ==>
        part.expiresAt.Some? && (ExpiryPending(s.db.jobs, part.id, part.expiresAt.value) <==> part.id !in ys[i].stranded)
    ensures var s := ys[i].s; var part := s.db.parts[k];
      part.id in ys[i].stranded ==>
        forall j :: 0 <= j < |s.db.jobs| && s.db.jobs[j].kind == PeekExpire && s.db.jobs[j].payload.participationId == part.id ==>
          s.db.jobs[j].Terminal()
  {
    RunKeepsLife(ys, ops, i);
    var s := ys[i].s;
    var part := s.db.parts[k];
    forall j | 0 <= j < |s.db.jobs|
      ensures Peeks.Counted(s.db.jobs[j], part)
    {
    }
    assert Peeks.PeekOk(part, s, ys[i].stranded, None);
    if part.id in ys[i].stranded {
      assert forall j :: 0 <= j < |s.db.jobs| ==> !Peeks.LiveExpiry(s.db.jobs[j], part.id);
    } else if Peeks.Peeking(part) && Lifecycle.OpenIn(s.db.events, part.eventId) {
      var j :| 0 <= j < |s.db.jobs| && Peeks.Expires(s.db.jobs[j], part, None);
      assert PendingExpiry(s.db.jobs[j], part.id, part.expiresAt.value);
    }
  }
}
