/** The use cases and job handlers, call by call (usecase/event.go, usecase/participation.go,
    usecase/reminder.go, scheduler/handler.go), proved to do to the stored state what the
    functions of `Manager` say. */
module UseCases {
  import opened Common
  import opened Jobs
  import opened Sorting
  import opened Reminders
  import opened Participations
  import opened Events
  import opened Manager
  import opened Stores
  import opened Providers
  import Edits

  // ----- highest number, in any order

  function Higher(h: int, job: Job): int {
    if job.kind == Reminder then Max(h, job.payload.sequence) else h
  }

  /** The largest reminder number among these jobs, as the loop finds it. */
  function Highest(jobs: seq<Job>): int {
    if jobs == [] then 0 else Higher(Highest(jobs[..|jobs| - 1]), jobs[|jobs| - 1])
  }

  lemma {:induction false} HighestBounds(jobs: seq<Job>)
    ensures Highest(jobs) >= 0
    ensures forall i :: 0 <= i < |jobs| && jobs[i].kind == Reminder ==> jobs[i].payload.sequence <= Highest(jobs)
    ensures Highest(jobs) == 0
            || exists i :: 0 <= i < |jobs| && jobs[i].kind == Reminder && jobs[i].payload.sequence == Highest(jobs)
  {
    if jobs != [] {
      var front := jobs[..|jobs| - 1];
      HighestBounds(front);
      if Highest(jobs) != 0 {
        if Highest(jobs) == Highest(front) {
          var i :| 0 <= i < |front| && front[i].kind == Reminder && front[i].payload.sequence == Highest(front);
          assert jobs[i] == front[i];
        } else {
          assert jobs[|jobs| - 1].kind == Reminder;
        }
      }
    }
  }

  /** Sorting does not change the largest number. */
  lemma HighestOfSame(a: seq<Job>, b: seq<Job>)
    requires forall x :: x in a <==> x in b
    ensures Highest(a) == Highest(b)
  {
    HighestBounds(a);
    HighestBounds(b);
    if Highest(a) > 0 {
      var i :| 0 <= i < |a| && a[i].kind == Reminder && a[i].payload.sequence == Highest(a);
      assert a[i] in b;
    }
    if Highest(b) > 0 {
      var i :| 0 <= i < |b| && b[i].kind == Reminder && b[i].payload.sequence == Highest(b);
      assert b[i] in a;
    }
  }

  lemma {:induction false} HighestOfEvent(jobs: seq<Job>, eventId: nat)
    ensures Highest(JobsOf(jobs, eventId)) == HighestSequence(jobs, eventId)
  {
    if jobs != [] {
      var last := |jobs| - 1;
      HighestOfEvent(jobs[..last], eventId);
      if jobs[last].eventId == eventId {
        assert JobsOf(jobs, eventId)[..|JobsOf(jobs, eventId)| - 1] == JobsOf(jobs[..last], eventId);
      } else {
        assert JobsOf(jobs, eventId) == JobsOf(jobs[..last], eventId);
      }
    }
  }

  class Services {
    const store: Store
    const provider: Provider
    const workspaces: map<nat, Settings>

    constructor (store: Store, provider: Provider, workspaces: map<nat, Settings>)
      ensures this.store == store && this.provider == provider && this.workspaces == workspaces
    {
      this.store, this.provider, this.workspaces := store, provider, workspaces;
    }

    function Now(): State
      reads store, provider
    {
      State(store.Contents(), provider.Current(), workspaces)
    }

    // ----- shared steps

    /** An existing job with the same key is as good as a new one. */
    method Enqueue(job: Job, now: int)
      modifies store
      ensures store.Contents() == EnqueueJob(old(store.Contents()), job, now)
    {
      var _ := store.EnqueueIfNew(job, now);
    }

    method WorkspaceOf(id: nat) returns (r: Result<Settings, Error>)
      ensures r == if id in workspaces then Ok(workspaces[id]) else Err(NotFound)
    {
      r := if id in workspaces then Ok(workspaces[id]) else Err(NotFound);
    }

    method MoveCount(eventId: nat, delta: int, now: int)
      modifies store
      ensures store.Contents() == AddCount(old(store.Contents()), eventId, delta, now)
    {
      var _ := store.ChangeEvent(eventId, CountBy(delta, now));
    }

    // ----- reminders

    method NextReminderSequence(eventId: nat) returns (sequence: int)
      ensures sequence == HighestSequence(store.jobs, eventId) + 1
    {
      var jobs := store.ListJobs(eventId);
      var highest := 0;
      for i := 0 to |jobs|
        invariant highest == Highest(jobs[..i])
      {
        assert jobs[..i + 1][..i] == jobs[..i];
        if jobs[i].kind == Reminder {
          highest := Max(highest, jobs[i].payload.sequence);
        }
      }
      assert jobs[..|jobs|] == jobs;
      SortMembers(JobsOf(store.jobs, eventId), RunsBefore);
      HighestOfSame(jobs, JobsOf(store.jobs, eventId));
      HighestOfEvent(store.jobs, eventId);
      return highest + 1;
    }

    method Reschedule(ws: Settings, ev: Event, now: int) returns (r: Result<(), Error>)
      modifies store
      ensures (store.Contents(), r) == ScheduleReminders(old(store.Contents()), ws, ev, now)
    {
      var _ := store.CancelPending(ev.id, [Reminder], now);
      if ev.status != Open {
        return Ok(());
      }
      var schedule := ComputeSchedule(ev.policy, now, ev.startsAt, ws.zone);
      if schedule.Err? {
        return Err(Validation);
      }
      var sequence := NextReminderSequence(ev.id);
      EnqueueUnsent(ev.id, sequence, schedule.value, now);
      return Ok(());
    }

    /** The loop of scheduleReminders: one job for each time that has not been sent. */
    method EnqueueUnsent(eventId: nat, first: int, times: seq<int>, now: int)
      modifies store
      ensures store.Contents() == EnqueueReminders(old(store.Contents()), eventId, first, times, now)
    {
      var sequence := first;
      ghost var whole := EnqueueReminders(store.Contents(), eventId, sequence, times, now);
      for i := 0 to |times|
        invariant EnqueueReminders(store.Contents(), eventId, sequence, times[i..], now) == whole
      {
        var sent := store.WasSentAt(eventId, times[i]);
        assert times[i..][1..] == times[i + 1..];
        if sent {
          continue;
        }
        Enqueue(NewReminderJob(eventId, sequence, times[i]), now);
        sequence := sequence + 1;
      }
    }

    /** Posting cannot fail the reminder: a refused post is noted and passed over. */
    method SendReminder(eventId: nat, sequence: int, scheduledFor: int, now: int) returns (r: Result<bool, Error>)
      modifies store
      ensures (Now(), r) == Send(old(Now()), eventId, sequence, scheduledFor, now)
    {
      var found := store.LoadEvent(eventId);
      if found.Err? {
        return Err(found.error);
      }
      var ev := found.value;
      if !ev.IsOpen() {
        return Ok(false);
      }
      if ev.startsAt <= now {
        return Ok(false);
      }
      var sent := store.WasSentSequence(eventId, sequence);
      if sent {
        return Ok(false);
      }
      var ws := WorkspaceOf(ev.workspaceId);
      if ws.Err? {
        return Err(ws.error);
      }
      var at := scheduledFor;
      if at == ZERO_TIME {
        at := now;
      }
      store.AppendLog(ReminderLog(0, ev.id, sequence, at, now));
      return Ok(true);
    }

    // ----- events

    method NewEvent(p: NewEventParams, now: int) returns (r: Result<Event, Error>)
      ensures r.Ok? <==> ValidNewEvent(p, now)
      ensures r == if r.Ok? then Ok(FreshEvent(p, 0, now)) else Err(Validation)
      ensures r.Ok? ==>
                && r.value.workspaceId == p.workspaceId && r.value.startsAt == p.startsAt && r.value.endsAt == p.endsAt
                && r.value.organizer == p.organizer && r.value.policy == p.policy && r.value.status == Open
                && r.value.createdAt == now == r.value.updatedAt && r.value.endedAt == None && r.value.endReason == None
                && r.value.channel == ChannelRef(None, "", false) && r.value.participantCount == 0
    {
      var policyValid := Validate(p.policy);
      if !p.textValid || p.organizer == "" || p.startsAt <= now || !ValidEndsAt(p.startsAt, p.endsAt) || !policyValid {
        return Err(Validation);
      }
      return Ok(Event(0, p.workspaceId, p.startsAt, p.endsAt, Open, p.organizer, NO_CHANNEL, p.policy, 0, None, None, now, now));
    }

    method CreateChannelFor(ev: Event, names: seq<string>) returns (r: Result<(nat, string), Error>)
      modifies provider
      ensures (provider.Current(), r) == TryNames(old(provider.Current()), names, [ev.organizer])
      ensures r.Err? ==> provider.Current() == old(provider.Current())
    {
      for i := 0 to |names|
        invariant provider.Current() == old(provider.Current())
        invariant TryNames(provider.Current(), names[i..], [ev.organizer]) == TryNames(provider.Current(), names, [ev.organizer])
      {
        var channel := provider.CreatePrivateChannel(names[i], [ev.organizer]);
        if channel.Ok? {
          return Ok((channel.value, names[i]));
        }
        assert names[i..][1..] == names[i + 1..];
      }
      return Err(NameTaken);
    }

    method Abort(ev: Event, now: int)
      modifies store
      ensures store.Contents() == AbortProvision(old(store.Contents()), ev, now)
    {
      if !ev.IsOpen() {
        return;
      }
      var canceled := ev.(status := CanceledEvent, endReason := Some(ProvisionFailed), endedAt := Some(now), updatedAt := now);
      var _ := store.ChangeEvent(ev.id, Overwrite(canceled));
      if ev.channel.id.None? {
        return;
      }
      Enqueue(NewArchiveJob(ev.id, now), now);
    }

    /** The stored event, with the organizer as its one participant. */
    method StoreEvent(made: Event, now: int) returns (ev: Event)
      modifies store
      ensures ev == made.(id := old(store.nextId))
      ensures var db := old(store.Contents());
              store.Contents() == RegisterOrganizer(db.(events := db.events + [ev], nextId := db.nextId + 1), ev, now)
    {
      ev := store.CreateEvent(made);
      var _, _ := store.UpsertParticipation(Entry(ev.id, ev.workspaceId, ev.organizer, Participant, None), now);
      MoveCount(ev.id, 1, now);
    }

    /** Everything that can refuse an event before it is stored. */
    method Prepare(input: CreateInput, now: int) returns (r: Result<(Settings, Event), Error>)
      ensures r.Ok? <==>
                && input.online && input.params.workspaceId in workspaces
                && ValidNewEvent(Params(input, workspaces[input.params.workspaceId]), now)
      ensures r == if !input.online then Err(ProviderUnavailable)
                   else if input.params.workspaceId !in workspaces then Err(NotFound)
                   else if r.Err? then Err(Validation)
                   else
                     var ws := workspaces[input.params.workspaceId];
                     Ok((ws, FreshEvent(Params(input, ws), 0, now)))
    {
      if !input.online {
        return Err(ProviderUnavailable);
      }
      var ws := WorkspaceOf(input.params.workspaceId);
      if ws.Err? {
        return Err(ws.error);
      }
      var policy := ws.value.defaultPolicy;
      if input.policyGiven {
        policy := input.params.policy;
      }
      var made := NewEvent(input.params.(policy := policy), now);
      if made.Err? {
        return Err(made.error);
      }
      return Ok((ws.value, made.value));
    }

    method CreateEvent(input: CreateInput, now: int) returns (r: Result<nat, Error>)
      modifies store, provider
      ensures (Now(), r) == Create(old(Now()), input, now)
    {
      var prepared := Prepare(input, now);
      if prepared.Err? {
        return Err(prepared.error);
      }
      var (ws, made) := prepared.value;
      var ev := StoreEvent(made, now);
      assert ev == FreshEvent(Params(input, ws), old(store.nextId), now);
      CreateProvisions(old(Now()), input, now);
      r := ProvisionEvent(input, ws, ev.(participantCount := 1), now);
    }

    method ProvisionEvent(input: CreateInput, ws: Settings, ev: Event, now: int) returns (r: Result<nat, Error>)
      modifies store, provider
      ensures (Now(), r) == Provision(old(Now()), input, ws, ev, now)
    {
      var channel := CreateChannelFor(ev, [input.name, input.name2, input.name3]);
      if channel.Err? {
        Abort(ev, now);
        return Err(channel.error);
      }
      var ref := ChannelRef(Some(channel.value.0), channel.value.1, false);
      var ev' := ev.(channel := ref);
      var _ := store.ChangeEvent(ev.id, SetChannel(ref, now));
      if !input.posts {
        Abort(ev', now);
        return Err(ProviderUnavailable);
      }
      var scheduled := Reschedule(ws, ev', now);
      if scheduled.Err? {
        return Err(scheduled.error);
      }
      Enqueue(NewAutoEndJob(ev'.id, ev'.AutoEndAt(ws.autoEndGrace)), now);
      return Ok(ev'.id);
    }

    /** Event.Apply on a copy of the event. */
    method ApplyEdit(ev: Event, u: EventUpdate, now: int) returns (r: Result<Event, Error>)
      ensures r == if !ev.IsOpen() then Err(EventClosed)
                   else if ValidEdit(ev, u, now) then Ok(Edited(ev, u, now)) else Err(Validation)
      ensures r.Ok? <==> ev.status == Open && Edits.Sound(ev, u)
      ensures r.Ok? ==> Edits.HasEdit(ev, u, now, r.value)
    {
      if !ev.IsOpen() {
        return Err(EventClosed);
      }
      var next := ev;
      var ok := u.textValid;
      if u.startsAt.Some? {
        next := next.(startsAt := u.startsAt.value);
      }
      if u.clearEndsAt {
        next := next.(endsAt := None);
      } else if u.endsAt.Some? {
        next := next.(endsAt := u.endsAt);
      }
      if !ValidEndsAt(next.startsAt, next.endsAt) {
        ok := false;
      }
      if u.policy.Some? {
        next := next.(policy := u.policy.value);
        var valid := Validate(next.policy);
        ok := ok && valid;
      }
      if !ok {
        return Err(Validation);
      }
      return Ok(next.(updatedAt := now));
    }

    method UpdateEvent(eventId: nat, u: EventUpdate, actor: Actor, now: int) returns (r: Result<(), Error>)
      modifies store
      ensures (Now(), r) == Update(old(Now()), eventId, u, actor, now)
    {
      var found := store.LoadEvent(eventId);
      if found.Err? {
        return Err(found.error);
      }
      var ev := found.value;
      if !MayManage(ev, actor) {
        return Err(Forbidden);
      }
      var ws := WorkspaceOf(ev.workspaceId);
      if ws.Err? {
        return Err(ws.error);
      }
      var edited := ApplyEdit(ev, u, now);
      if edited.Err? {
        return Err(edited.error);
      }
      var _ := store.ChangeEvent(eventId, Overwrite(edited.value));
      r := Reschedule(ws.value, edited.value, now);
    }

    method CloseEvent(eventId: nat, reason: EndReason, actor: Actor, now: int) returns (r: Result<(), Error>)
      modifies store
      ensures (Now(), r) == Close(old(Now()), eventId, reason, actor, now)
    {
      var found := store.LoadEvent(eventId);
      if found.Err? {
        return Err(found.error);
      }
      var ev := found.value;
      if !MayManage(ev, actor) {
        return Err(Forbidden);
      }
      if !ev.IsOpen() {
        return Ok(());
      }
      var status := if reason == CanceledByHand then CanceledEvent else Ended;
      ev := ev.(status := status, endReason := Some(reason), endedAt := Some(now), updatedAt := now);
      var _ := store.ChangeEvent(eventId, Overwrite(ev));
      var ws := WorkspaceOf(ev.workspaceId);
      if ws.Err? {
        return Err(ws.error);
      }
      var _ := store.CancelPending(eventId, [Reminder, AutoEnd, PeekExpire], now);
      if ev.channel.id.Some? {
        Enqueue(NewArchiveJob(eventId, now), now);
      }
      return Ok(());
    }

    method ArchiveEventChannel(eventId: nat, now: int) returns (r: Result<(), Error>)
      modifies store, provider
      ensures (Now(), r) == ArchiveChannel(old(Now()), eventId, now)
    {
      var found := store.LoadEvent(eventId);
      if found.Err? {
        return Err(found.error);
      }
      var ev := found.value;
      if ev.channel.id.None? || ev.channel.archived {
        return Ok(());
      }
      var ws := WorkspaceOf(ev.workspaceId);
      if ws.Err? {
        return Err(ws.error);
      }
      // A channel deleted by hand cannot be archived; the record follows all the same.
      var _ := provider.Archive(ev.channel.id.value);
      var _ := store.ChangeEvent(eventId, SetChannel(ev.channel.(archived := true), now));
      return Ok(());
    }

    // ----- participation

    method LoadOpenEvent(eventId: nat) returns (r: Result<(Event, Settings), Error>)
      ensures r == OpenEvent(Now(), eventId)
    {
      var found := store.LoadEvent(eventId);
      if found.Err? {
        return Err(found.error);
      }
      if !found.value.IsOpen() {
        return Err(EventClosed);
      }
      var ws := WorkspaceOf(found.value.workspaceId);
      if ws.Err? {
        return Err(ws.error);
      }
      return Ok((found.value, ws.value));
    }

    method Admit(ev: Event, user: string, now: int) returns (r: Result<(), Error>)
      modifies store, provider
      ensures (Now(), r) == JoinChannel(old(Now()), ev, user, now)
    {
      if ev.channel.id.None? {
        return Ok(());
      }
      var added := provider.AddUser(ev.channel.id.value, user);
      if added.Ok? {
        return Ok(());
      }
      var _ := CloseEvent(ev.id, ChannelLost, Actor("", true), now);
      return Err(added.error);
    }

    method Expel(ev: Event, user: string, now: int) returns (r: Result<(), Error>)
      modifies store, provider
      ensures (Now(), r) == LeaveChannel(old(Now()), ev, user, now)
    {
      if ev.channel.id.None? {
        return Ok(());
      }
      var removed := provider.RemoveUser(ev.channel.id.value, user);
      if removed.Ok? {
        return Ok(());
      }
      var _ := CloseEvent(ev.id, ChannelLost, Actor("", true), now);
      return Err(removed.error);
    }

    method Effects(ev: Event, part: Participation, t: Transition, now: int)
      modifies store
      ensures store.Contents() == AfterTransition(old(store.Contents()), ev, part, t, now)
    {
      if t.role == Participant {
        MoveCount(ev.id, 1, now);
      }
      if t.cancelPeekJob {
        var _ := store.CancelPending(ev.id, [PeekExpire], now);
      }
      if t.role == Peeker && part.expiresAt.Some? {
        Enqueue(NewPeekExpireJob(ev.id, part.id, part.peekCount, part.expiresAt.value), now);
      }
    }

    method ApplyButton(eventId: nat, user: string, action: Action, now: int) returns (r: Result<Transition, Error>)
      modifies store, provider
      ensures (Now(), r) == Apply(old(Now()), eventId, user, action, now)
    {
      var loaded := LoadOpenEvent(eventId);
      if loaded.Err? {
        return Err(loaded.error);
      }
      var (ev, ws) := loaded.value;
      var found := store.IndexOfUser(eventId, user);
      var previous := if found.Some? then Some(store.parts[found.value]) else None;
      var t := DecideTransition(previous, action);
      if !t.addToChannel && !t.cancelPeekJob {
        return Ok(t);
      }
      r := PressButton(ev, ws, user, action, t, now);
    }

    method PressButton(ev: Event, ws: Settings, user: string, action: Action, t: Transition, now: int)
      returns (r: Result<Transition, Error>)
      modifies store, provider
      ensures (Now(), r) == Press(old(Now()), ev, ws, user, action, t, now)
    {
      var expiresAt: Option<int> := None;
      if t.role == Peeker {
        expiresAt := Some(now + ws.peekDuration);
      }
      var before, after := store.UpsertParticipation(Entry(ev.id, ev.workspaceId, user, t.role, expiresAt), now);
      var settled := DecideTransition(before, action);
      if settled.change != t.change {
        return Ok(settled);
      }
      if t.addToChannel {
        var joined := Admit(ev, user, now);
        if joined.Err? {
          return Err(joined.error);
        }
      }
      Effects(ev, after, t, now);
      return Ok(t);
    }

    method DetachUser(ev: Event, part: Participation, status: Standing, now: int) returns (r: Result<(), Error>)
      modifies store, provider
      ensures (Now(), r) == Detach(old(Now()), ev, part, status, now)
    {
      var gone := Expel(ev, part.userId, now);
      if gone.Err? {
        return Err(gone.error);
      }
      var ok := store.ChangeStatus(part.id, status, now);
      if !ok {
        return Err(NotFound);
      }
      if part.role == Participant {
        MoveCount(ev.id, -1, now);
      }
      return Ok(());
    }

    method LeaveEvent(eventId: nat, user: string, now: int) returns (r: Result<(), Error>)
      modifies store, provider
      ensures (Now(), r) == Leave(old(Now()), eventId, user, now)
    {
      var loaded := LoadOpenEvent(eventId);
      if loaded.Err? {
        return Err(loaded.error);
      }
      var ev := loaded.value.0;
      if user == ev.organizer {
        return Err(OrganizerCannotLeave);
      }
      var found := store.IndexOfUser(eventId, user);
      if found.None? {
        return Err(NotFound);
      }
      var part := store.parts[found.value];
      if !part.IsActive() {
        return Err(NotFound);
      }
      r := DetachUser(ev, part, Left, now);
    }

    method RemoveUser(eventId: nat, user: string, online: bool, now: int) returns (r: Result<(), Error>)
      modifies store, provider
      ensures (Now(), r) == Remove(old(Now()), eventId, user, online, now)
    {
      if !online {
        return Err(ProviderUnavailable);
      }
      var loaded := LoadOpenEvent(eventId);
      if loaded.Err? {
        return Err(loaded.error);
      }
      var found := store.IndexOfUser(eventId, user);
      if found.None? {
        return Err(NotFound);
      }
      var part := store.parts[found.value];
      if !part.IsActive() {
        return Ok(());
      }
      r := DetachUser(loaded.value.0, part, Removed, now);
    }

    method ExpireOnePeek(id: nat, now: int) returns (r: Result<(Option<Participation>, bool), Error>)
      modifies store, provider
      ensures (Now(), r) == ExpirePeek(old(Now()), id, now)
    {
      var found := store.IndexOfPart(id);
      if found.None? {
        return Ok((None, false));
      }
      var part := store.parts[found.value];
      if part.role != Peeker || !part.IsActive() {
        return Ok((Some(part), false));
      }
      if !part.PeekExpired(now) {
        return Ok((Some(part), false));
      }
      var ev := store.LoadEvent(part.eventId);
      if ev.Err? {
        return Err(ev.error);
      }
      var ws := WorkspaceOf(ev.value.workspaceId);
      if ws.Err? {
        return Err(ws.error);
      }
      var gone := DetachUser(ev.value, part, Expired, now);
      if gone.Err? {
        return Err(gone.error);
      }
      return Ok((Some(part.(status := Expired)), true));
    }

    // ----- job handlers

    method PutOff(job: Job, runAt: int, now: int) returns (handled: Handled)
      modifies store
      ensures (Now(), handled) == RescheduleJob(old(Now()), job, runAt, now)
    {
      var ok := store.Postpone(job.id, runAt, now);
      handled := if ok then WasRescheduled else HandlerError(NotFound);
    }

    method PeekExpireHandler(job: Job, now: int) returns (handled: Handled)
      modifies store, provider
      ensures (Now(), handled) == HandlePeekExpire(old(Now()), job, now)
    {
      var r := ExpireOnePeek(job.payload.participationId, now);
      if r.Err? {
        return SkipMissing<()>(Err(r.error));
      }
      var (part, expired) := r.value;
      if expired || part.None? || part.value.role != Peeker || !part.value.IsActive() {
        return Finished;
      }
      if part.value.expiresAt.None? {
        return Finished;
      }
      handled := PutOff(job, part.value.expiresAt.value, now);
    }

    method AutoEndHandler(job: Job, now: int) returns (handled: Handled)
      modifies store, provider
      ensures (Now(), handled) == HandleAutoEnd(old(Now()), job, now)
    {
      var found := store.LoadEvent(job.payload.eventId);
      if found.Err? {
        return Finished;
      }
      var ev := found.value;
      if !ev.IsOpen() {
        return Finished;
      }
      var ws := WorkspaceOf(ev.workspaceId);
      if ws.Err? {
        return Finished;
      }
      var at := ev.AutoEndAt(ws.value.autoEndGrace);
      if at > now {
        handled := PutOff(job, at, now);
        return;
      }
      var r := CloseEvent(ev.id, Auto, Actor("", true), now);
      handled := SkipMissing(r);
    }

    method HandleJob(job: Job, now: int) returns (handled: Handled)
      modifies store, provider
      ensures (Now(), handled) == Handle(old(Now()), job, now)
    {
      match job.kind {
        case Reminder =>
          var r := SendReminder(job.payload.eventId, job.payload.sequence, job.payload.scheduledFor, now);
          handled := SkipMissing(r);
        case PeekExpire =>
          handled := PeekExpireHandler(job, now);
        case AutoEnd =>
          handled := AutoEndHandler(job, now);
        case Archive =>
          var r := ArchiveEventChannel(job.payload.eventId, now);
          handled := SkipMissing(r);
        case Unknown(_) =>
          handled := HandlerError(PermanentError);
      }
    }
  }
}
