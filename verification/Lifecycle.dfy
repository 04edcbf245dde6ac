/** Closing is final and clean, and auto-end is never early and never lost: what
    crash-free sequential runs keep about events and their jobs. */
module Lifecycle {
  import opened Common
  import opened Jobs
  import opened Reminders
  import opened Participations
  import opened Events
  import opened Manager
  import JobShapes
  import Roster

  // ----- the invariant

  /** An event is closed exactly when it says when and why, it ends after it starts, and an
      automatic end did not come before the time it was due. */
  ghost predicate EventShape(ev: Event, workspaces: map<nat, Settings>) {
    && (ev.IsOpen() <==> ev.endedAt.None?)
    && (ev.IsOpen() <==> ev.endReason.None?)
    && ValidEndsAt(ev.startsAt, ev.endsAt)
    && ev.workspaceId in workspaces
    && (ev.endReason == Some(Auto) ==> ev.AutoEndAt(workspaces[ev.workspaceId].autoEndGrace) <= ev.endedAt.value)
  }

  ghost predicate OpenIn(events: seq<Event>, id: nat) {
    GetEvent(events, id).Some? && GetEvent(events, id).value.IsOpen()
  }

  /** `turn` is the job a worker is executing right now, if any: nothing is asked of it. */
  ghost predicate JobOk(job: Job, events: seq<Event>, turn: Option<nat>) {
    Some(job.id) != turn ==>
      && job.status != Running
      && (job.status == Pending ==> job.attempts == 0 && (job.kind == Archive || OpenIn(events, job.eventId)))
  }

  ghost predicate Alive(job: Job, turn: Option<nat>) {
    job.status == Pending || Some(job.id) == turn
  }

  ghost predicate HasAutoEnd(jobs: seq<Job>, id: nat, turn: Option<nat>) {
    exists i :: 0 <= i < |jobs| && jobs[i].kind == AutoEnd && jobs[i].eventId == id && Alive(jobs[i], turn)
  }

  ghost predicate Inv(s: State, created: set<nat>, turn: Option<nat>) {
    && JobShapes.Inv(s.db)
    && (forall id: nat :: GetEvent(s.db.events, id).Some? ==>
          id < s.db.nextId && EventShape(GetEvent(s.db.events, id).value, s.workspaces))
    && (forall i :: 0 <= i < |s.db.jobs| ==> JobOk(s.db.jobs[i], s.db.events, turn))
    && (forall id :: id in created ==> id < s.db.nextId && (OpenIn(s.db.events, id) ==> HasAutoEnd(s.db.jobs, id, turn)))
  }

  // ----- primitive steps

  /** Nothing this invariant is about has changed. */
  ghost predicate SameEvents(a: State, b: State) {
    && b.workspaces == a.workspaces && b.db.nextId >= a.db.nextId
    && forall id :: SameLife(GetEvent(a.db.events, id), GetEvent(b.db.events, id))
  }

  ghost predicate SameLife(a: Option<Event>, b: Option<Event>) {
    && a.Some? == b.Some?
    && (a.Some? ==>
          && b.value.id == a.value.id && b.value.workspaceId == a.value.workspaceId
          && b.value.startsAt == a.value.startsAt && b.value.endsAt == a.value.endsAt
          && b.value.status == a.value.status && b.value.endedAt == a.value.endedAt
          && b.value.endReason == a.value.endReason)
  }

  lemma SameEventsKeepInv(s: State, s': State, created: set<nat>, turn: Option<nat>)
    requires Inv(s, created, turn) && SameEvents(s, s') && s'.db.jobs == s.db.jobs
    ensures Inv(s', created, turn)
  {
    forall id: nat | GetEvent(s'.db.events, id).Some?
      ensures id < s'.db.nextId && EventShape(GetEvent(s'.db.events, id).value, s'.workspaces)
    {
      assert SameLife(GetEvent(s.db.events, id), GetEvent(s'.db.events, id));
    }
    forall id
      ensures OpenIn(s'.db.events, id) == OpenIn(s.db.events, id)
    {
      assert SameLife(GetEvent(s.db.events, id), GetEvent(s'.db.events, id));
    }
    forall i | 0 <= i < |s.db.jobs|
      ensures JobOk(s'.db.jobs[i], s'.db.events, turn)
    {
      assert JobOk(s.db.jobs[i], s.db.events, turn);
    }
  }

  /** Channel and counter writes. */
  lemma QuietWriteKeepsInv(s: State, id: nat, write: EventWrite, created: set<nat>, turn: Option<nat>)
    requires Inv(s, created, turn) && !write.Overwrite?
    ensures Inv(s.(db := PutEvent(s.db, id, write)), created, turn)
  {
    var s' := s.(db := PutEvent(s.db, id, write));
    forall other
      ensures SameLife(GetEvent(s.db.events, other), GetEvent(s'.db.events, other))
    {
      GetAfterWrite(s.db.events, id, write, other);
    }
    SameEventsKeepInv(s, s', created, turn);
  }

  /** Overwriting an open event with another open one. */
  lemma EditKeepsInv(s: State, next: Event, created: set<nat>, turn: Option<nat>)
    requires Inv(s, created, turn) && OpenIn(s.db.events, next.id) && next.IsOpen()
    requires EventShape(next, s.workspaces) && next.workspaceId == GetEvent(s.db.events, next.id).value.workspaceId
    ensures Inv(s.(db := PutEvent(s.db, next.id, Overwrite(next))), created, turn)
  {
    var s' := s.(db := PutEvent(s.db, next.id, Overwrite(next)));
    forall id
      ensures GetEvent(s'.db.events, id) ==
              if id == next.id then Some(Overwritten(GetEvent(s.db.events, id).value, next)) else GetEvent(s.db.events, id)
    {
      GetAfterWrite(s.db.events, next.id, Overwrite(next), id);
    }
    forall i | 0 <= i < |s.db.jobs|
      ensures JobOk(s'.db.jobs[i], s'.db.events, turn)
    {
      assert JobOk(s.db.jobs[i], s.db.events, turn);
    }
  }

  lemma EnqueueKeepsInv(s: State, job: Job, now: int, created: set<nat>, turn: Option<nat>)
    requires Inv(s, created, turn)
    requires JobShapes.Shaped(job) && job.eventId < s.db.nextId && job.payload.participationId < s.db.nextId
    requires job.kind == Archive || OpenIn(s.db.events, job.eventId)
    ensures Inv(s.(db := EnqueueJob(s.db, job, now)), created, turn)
  {
    JobShapes.EnqueueKeepsInv(s.db, job, now);
    var db' := EnqueueJob(s.db, job, now);
    forall i | 0 <= i < |db'.jobs|
      ensures JobOk(db'.jobs[i], db'.events, turn)
    {
      if i < |s.db.jobs| {
        assert JobOk(s.db.jobs[i], s.db.events, turn);
        assert db'.jobs[i] == s.db.jobs[i];
      }
    }
    forall id | id in created && OpenIn(s.db.events, id)
      ensures HasAutoEnd(db'.jobs, id, turn)
    {
      var i :| 0 <= i < |s.db.jobs| && s.db.jobs[i].kind == AutoEnd && s.db.jobs[i].eventId == id && Alive(s.db.jobs[i], turn);
      assert db'.jobs[i] == s.db.jobs[i];
    }
  }

  /** Canceling jobs never hurts, unless it cancels the auto-end of an open event. */
  lemma CancelKeepsInv(s: State, eventId: nat, kinds: seq<Kind>, now: int, created: set<nat>, turn: Option<nat>)
    requires Inv(s, created, turn)
    requires kinds != [] && (AutoEnd in kinds ==> !OpenIn(s.db.events, eventId))
    ensures Inv(s.(db := CancelJobs(s.db, eventId, kinds, now)), created, turn)
  {
    JobShapes.CancelKeepsInv(s.db, eventId, kinds, now);
    var db' := CancelJobs(s.db, eventId, kinds, now);
    forall i | 0 <= i < |db'.jobs|
      ensures JobOk(db'.jobs[i], db'.events, turn)
    {
      assert JobOk(s.db.jobs[i], s.db.events, turn);
    }
    forall id | id in created && OpenIn(s.db.events, id)
      ensures HasAutoEnd(db'.jobs, id, turn)
    {
      var i :| 0 <= i < |s.db.jobs| && s.db.jobs[i].kind == AutoEnd && s.db.jobs[i].eventId == id && Alive(s.db.jobs[i], turn);
      assert db'.jobs[i] == s.db.jobs[i];
    }
  }

  lemma {:induction false} EnqueueRemindersKeepsInv(s: State, eventId: nat, sequence: int, times: seq<int>, now: int,
                                                    created: set<nat>, turn: Option<nat>)
    requires Inv(s, created, turn) && OpenIn(s.db.events, eventId)
    ensures Inv(s.(db := EnqueueReminders(s.db, eventId, sequence, times, now)), created, turn)
    decreases |times|
  {
    if times != [] {
      if SentAt(s.db.logs, eventId, times[0]) {
        EnqueueRemindersKeepsInv(s, eventId, sequence, times[1..], now, created, turn);
      } else {
        var job := NewReminderJob(eventId, sequence, times[0]);
        EnqueueKeepsInv(s, job, now, created, turn);
        EnqueueRemindersKeepsInv(s.(db := EnqueueJob(s.db, job, now)), eventId, sequence + 1, times[1..], now, created, turn);
      }
    }
  }

  lemma ScheduleKeepsInv(s: State, ws: Settings, ev: Event, now: int, created: set<nat>, turn: Option<nat>)
    requires Inv(s, created, turn) && (ev.IsOpen() ==> OpenIn(s.db.events, ev.id))
    ensures Inv(s.(db := ScheduleReminders(s.db, ws, ev, now).0), created, turn)
  {
    CancelKeepsInv(s, ev.id, [Reminder], now, created, turn);
    var s1 := s.(db := CancelJobs(s.db, ev.id, [Reminder], now));
    if ev.IsOpen() {
      match Times(ev, ws.zone, now) {
        case Err(_) =>
        case Ok(times) =>
          EnqueueRemindersKeepsInv(s1, ev.id, HighestSequence(s1.db.jobs, ev.id) + 1, times, now, created, turn);
      }
    }
  }

  // ----- use cases

  lemma UpdateKeepsInv(s: State, eventId: nat, u: EventUpdate, actor: Actor, now: int, created: set<nat>)
    requires Inv(s, created, None)
    ensures Inv(Update(s, eventId, u, actor, now).0, created, None)
  {
    var found := GetEvent(s.db.events, eventId);
    if found.Some? && found.value.IsOpen() && ValidEdit(found.value, u, now) && found.value.workspaceId in s.workspaces {
      var next := Edited(found.value, u, now);
      EditKeepsInv(s, next, created, None);
      GetAfterWrite(s.db.events, eventId, Overwrite(next), eventId);
      ScheduleKeepsInv(s.(db := PutEvent(s.db, eventId, Overwrite(next))), s.workspaces[found.value.workspaceId], next, now,
                       created, None);
    }
  }

  /** Closing an event and canceling what it had pending go together. */
  lemma ClosedKeepsInv(s: State, ev: Event, status: EventStatus, reason: EndReason, now: int,
                       created: set<nat>, turn: Option<nat>)
    requires Inv(s, created, turn) && GetEvent(s.db.events, ev.id) == Some(ev) && ev.IsOpen() && status != Open
    requires reason == Auto ==> ev.AutoEndAt(s.workspaces[ev.workspaceId].autoEndGrace) <= now
    ensures var db1 := PutEvent(s.db, ev.id, Overwrite(Closed(ev, status, reason, now)));
            Inv(s.(db := CancelJobs(db1, ev.id, CLOSING_KINDS, now)), created, turn)
  {
    var write := Overwrite(Closed(ev, status, reason, now));
    var db1 := PutEvent(s.db, ev.id, write);
    var s' := s.(db := CancelJobs(db1, ev.id, CLOSING_KINDS, now));
    JobShapes.CancelKeepsInv(s.db, ev.id, CLOSING_KINDS, now);
    forall id
      ensures GetEvent(s'.db.events, id) ==
              if id == ev.id then Some(WrittenEvent(ev, write)) else GetEvent(s.db.events, id)
    {
      GetAfterWrite(s.db.events, ev.id, write, id);
    }
    forall i | 0 <= i < |s'.db.jobs|
      ensures JobOk(s'.db.jobs[i], s'.db.events, turn)
    {
      assert JobOk(s.db.jobs[i], s.db.events, turn);
      assert JobShapes.Shaped(s.db.jobs[i]);
    }
    forall id | id in created && OpenIn(s'.db.events, id)
      ensures HasAutoEnd(s'.db.jobs, id, turn)
    {
      var i :| 0 <= i < |s.db.jobs| && s.db.jobs[i].kind == AutoEnd && s.db.jobs[i].eventId == id && Alive(s.db.jobs[i], turn);
      assert s'.db.jobs[i] == s.db.jobs[i];
    }
  }

  lemma CloseKeepsInv(s: State, eventId: nat, reason: EndReason, actor: Actor, now: int,
                      created: set<nat>, turn: Option<nat>)
    requires Inv(s, created, turn)
    requires reason == Auto && OpenIn(s.db.events, eventId) ==>
               var ev := GetEvent(s.db.events, eventId).value;
               ev.AutoEndAt(s.workspaces[ev.workspaceId].autoEndGrace) <= now
    ensures Inv(Close(s, eventId, reason, actor, now).0, created, turn)
  {
    var found := GetEvent(s.db.events, eventId);
    if found.Some? && MayManage(found.value, actor) && found.value.IsOpen() {
      var ev := found.value;
      ClosedKeepsInv(s, ev, CloseStatus(reason), reason, now, created, turn);
      var db1 := PutEvent(s.db, eventId, Overwrite(Closed(ev, CloseStatus(reason), reason, now)));
      EnqueueKeepsInv(s.(db := CancelJobs(db1, eventId, CLOSING_KINDS, now)), NewArchiveJob(eventId, now), now, created, turn);
    }
  }

  lemma ArchiveKeepsInv(s: State, eventId: nat, now: int, created: set<nat>, turn: Option<nat>)
    requires Inv(s, created, turn)
    ensures Inv(ArchiveChannel(s, eventId, now).0, created, turn)
  {
    var found := GetEvent(s.db.events, eventId);
    if found.Some? && found.value.channel.id.Some? && !found.value.channel.archived {
      var write := SetChannel(found.value.channel.(archived := true), now);
      QuietWriteKeepsInv(s, eventId, write, created, turn);
      SameEventsKeepInv(s.(db := PutEvent(s.db, eventId, write)), ArchiveChannel(s, eventId, now).0, created, turn);
    }
  }

  lemma PartsKeepInv(s: State, chat: Chat, parts: seq<Participation>, nextId: nat, created: set<nat>, turn: Option<nat>)
    requires Inv(s, created, turn) && nextId >= s.db.nextId
    ensures Inv(s.(chat := chat, db := s.db.(parts := parts, nextId := nextId)), created, turn)
  {
    SameEventsKeepInv(s, s.(chat := chat, db := s.db.(parts := parts, nextId := nextId)), created, turn);
  }

  lemma AfterTransitionKeepsInv(s: State, ev: Event, part: Participation, t: Transition, now: int, created: set<nat>)
    requires Inv(s, created, None) && OpenIn(s.db.events, ev.id) && part.id < s.db.nextId
    ensures Inv(s.(db := AfterTransition(s.db, ev, part, t, now)), created, None)
  {
    var counted := if t.role == Participant then AddCount(s.db, ev.id, 1, now) else s.db;
    QuietWriteKeepsInv(s, ev.id, CountBy(1, now), created, None);
    GetAfterWrite(s.db.events, ev.id, CountBy(1, now), ev.id);
    CancelKeepsInv(s.(db := counted), ev.id, [PeekExpire], now, created, None);
    var canceled := if t.cancelPeekJob then CancelJobs(counted, ev.id, [PeekExpire], now) else counted;
    if part.expiresAt.Some? {
      EnqueueKeepsInv(s.(db := canceled), NewPeekExpireJob(ev.id, part.id, part.peekCount, part.expiresAt.value), now, created, None);
    }
  }

  lemma ApplyKeepsInv(s: State, eventId: nat, user: string, action: Action, now: int, created: set<nat>)
    requires Inv(s, created, None) && Roster.Inv(s) && user != s.chat.bot
    ensures Inv(Apply(s, eventId, user, action, now).0, created, None)
  {
    match OpenEvent(s, eventId) {
      case Err(_) =>
      case Ok((ev, ws)) =>
        var t := DecideTransition(At(s.db.parts, FindUser(s.db.parts, eventId, user)), action);
        Roster.AddMemberMoves(s, ev, user);
        Roster.PressRunsThrough(s, ev, ws, user, action, t, now);
        var (db, _, after) := UpsertPart(s.db, Roster.EntryOf(ev, ws, user, t, now), now);
        var joined := if t.addToChannel then JoinChannel(s, ev, user, 0).0 else s;
        PartsKeepInv(s, joined.chat, db.parts, db.nextId, created, None);
        UpsertedId(s, Roster.EntryOf(ev, ws, user, t, now), now);
        AfterTransitionKeepsInv(joined.(db := db), ev, after, t, now, created);
    }
  }

  lemma UpsertedId(s: State, entry: Entry, now: int)
    requires Roster.Inv(s)
    ensures UpsertPart(s.db, entry, now).2.id < UpsertPart(s.db, entry, now).0.nextId
    ensures UpsertPart(s.db, entry, now).0.nextId >= s.db.nextId
  {
  }

  lemma DetachKeepsInv(s: State, ev: Event, i: nat, status: Standing, now: int, created: set<nat>, turn: Option<nat>)
    requires Inv(s, created, turn) && Roster.Inv(s) && i < |s.db.parts| && s.db.parts[i].IsActive() && status != Active
    requires GetEvent(s.db.events, ev.id) == Some(ev) && s.db.parts[i].eventId == ev.id
    ensures Inv(Detach(s, ev, s.db.parts[i], status, now).0, created, turn)
    ensures Detach(s, ev, s.db.parts[i], status, now).0.db.jobs == s.db.jobs
    ensures Detach(s, ev, s.db.parts[i], status, now).1.Ok?
  {
    Roster.DetachKeepsInv(s, ev, i, status, now);
    var s' := Detach(s, ev, s.db.parts[i], status, now).0;
    PartsKeepInv(s, s'.chat, s'.db.parts, s.db.nextId, created, turn);
    QuietWriteKeepsInv(s.(chat := s'.chat, db := s.db.(parts := s'.db.parts)), ev.id, CountBy(-1, now), created, turn);
  }

  lemma LeaveKeepsInv(s: State, eventId: nat, user: string, now: int, created: set<nat>)
    requires Inv(s, created, None) && Roster.Inv(s)
    ensures Inv(Leave(s, eventId, user, now).0, created, None)
  {
    var i := FindUser(s.db.parts, eventId, user);
    if OpenEvent(s, eventId).Ok? && i.Some? && s.db.parts[i.value].IsActive() {
      DetachKeepsInv(s, OpenEvent(s, eventId).value.0, i.value, Left, now, created, None);
    }
  }

  lemma RemoveKeepsInv(s: State, eventId: nat, user: string, online: bool, now: int, created: set<nat>)
    requires Inv(s, created, None) && Roster.Inv(s)
    ensures Inv(Remove(s, eventId, user, online, now).0, created, None)
  {
    var i := FindUser(s.db.parts, eventId, user);
    if OpenEvent(s, eventId).Ok? && i.Some? && s.db.parts[i.value].IsActive() {
      DetachKeepsInv(s, OpenEvent(s, eventId).value.0, i.value, Removed, now, created, None);
    }
  }

  lemma FreshEventKeepsInv(s: State, ev: Event, created: set<nat>)
    requires Inv(s, created, None) && ev.id == s.db.nextId && EventShape(ev, s.workspaces)
    ensures Inv(Roster.WithEvent(s, ev), created, None)
    ensures GetEvent(Roster.WithEvent(s, ev).db.events, ev.id) == Some(ev)
  {
    var s1 := Roster.WithEvent(s, ev);
    assert GetEvent(s.db.events, ev.id).None?;
    forall id
      ensures GetEvent(s1.db.events, id) == if id == ev.id then Some(ev) else GetEvent(s.db.events, id)
    {
      GetAfterAppend(s.db.events, ev, id);
    }
    forall i | 0 <= i < |s.db.jobs|
      ensures JobOk(s1.db.jobs[i], s1.db.events, None)
    {
      assert JobOk(s.db.jobs[i], s.db.events, None);
    }
  }

  lemma AbortKeepsInv(s: State, ev: Event, now: int, created: set<nat>)
    requires Inv(s, created, None) && OpenIn(s.db.events, ev.id) && ev.IsOpen()
    requires EventShape(ev, s.workspaces) && ev.workspaceId == GetEvent(s.db.events, ev.id).value.workspaceId
    requires ev.id !in created && forall i :: 0 <= i < |s.db.jobs| ==> s.db.jobs[i].eventId != ev.id
    ensures Inv(s.(db := AbortProvision(s.db, ev, now)), created, None)
  {
    var write := Overwrite(Closed(ev, CanceledEvent, ProvisionFailed, now));
    var s1 := s.(db := PutEvent(s.db, ev.id, write));
    forall id
      ensures GetEvent(s1.db.events, id) ==
              if id == ev.id then Some(WrittenEvent(GetEvent(s.db.events, id).value, write)) else GetEvent(s.db.events, id)
    {
      GetAfterWrite(s.db.events, ev.id, write, id);
    }
    forall i | 0 <= i < |s.db.jobs|
      ensures JobOk(s1.db.jobs[i], s1.db.events, None)
    {
      assert JobOk(s.db.jobs[i], s.db.events, None);
    }
    assert Inv(s1, created, None);
    EnqueueKeepsInv(s1, NewArchiveJob(ev.id, now), now, created, None);
  }

  /** No stored job belongs to this event yet. */
  ghost predicate Unused(jobs: seq<Job>, id: nat) {
    forall i :: 0 <= i < |jobs| ==> jobs[i].eventId != id
  }

  ghost predicate OnlyReminders(jobs: seq<Job>, id: nat) {
    forall i :: 0 <= i < |jobs| && jobs[i].eventId == id ==> jobs[i].kind == Reminder
  }

  /** A first auto-end job is never a duplicate. */
  lemma AutoEndEnqueued(s: State, id: nat, runAt: int, now: int, created: set<nat>)
    requires Inv(s, created, None) && OpenIn(s.db.events, id)
    requires OnlyReminders(s.db.jobs, id)
    ensures Inv(s.(db := EnqueueJob(s.db, NewAutoEndJob(id, runAt), now)), created + {id}, None)
  {
    var job := NewAutoEndJob(id, runAt);
    EnqueueKeepsInv(s, job, now, created, None);
    forall i | 0 <= i < |s.db.jobs|
      ensures s.db.jobs[i].key != job.key
    {
      assert JobShapes.Shaped(s.db.jobs[i]);
    }
    var jobs' := EnqueueJob(s.db, job, now).jobs;
    assert jobs'[|s.db.jobs|] == Stored(job, s.db.nextId, now);
    assert HasAutoEnd(jobs', id, None);
  }

  lemma {:induction false} RemindersOnly(db: Db, eventId: nat, sequence: int, times: seq<int>, now: int)
    requires OnlyReminders(db.jobs, eventId)
    ensures OnlyReminders(EnqueueReminders(db, eventId, sequence, times, now).jobs, eventId)
    decreases |times|
  {
    if times != [] {
      if SentAt(db.logs, eventId, times[0]) {
        RemindersOnly(db, eventId, sequence, times[1..], now);
      } else {
        RemindersOnly(EnqueueJob(db, NewReminderJob(eventId, sequence, times[0]), now), eventId, sequence + 1, times[1..], now);
      }
    }
  }

  lemma ScheduleRemindersOnly(db: Db, ws: Settings, ev: Event, now: int)
    requires Unused(db.jobs, ev.id)
    ensures OnlyReminders(ScheduleReminders(db, ws, ev, now).0.jobs, ev.id)
  {
    var db1 := CancelJobs(db, ev.id, [Reminder], now);
    match Times(ev, ws.zone, now) {
      case Err(_) =>
      case Ok(times) => RemindersOnly(db1, ev.id, HighestSequence(db1.jobs, ev.id) + 1, times, now);
    }
  }

  lemma ProvisionKeepsInv(s: State, input: CreateInput, ws: Settings, ev: Event, now: int, created: set<nat>)
    requires Inv(s, created, None) && GetEvent(s.db.events, ev.id).Some? && SameLife(Some(ev), GetEvent(s.db.events, ev.id))
    requires ev.IsOpen() && ev.id !in created && Unused(s.db.jobs, ev.id) && ev.id < s.db.nextId
    ensures var (s', r) := Provision(s, input, ws, ev, now);
            Inv(s', if r.Ok? then created + {r.value} else created, None)
  {
    var names := [input.name, input.name2, input.name3];
    match TryNames(s.chat, names, [ev.organizer]) {
      case (_, Err(e)) => AbortKeepsInv(s, ev, now, created);
      case (chat, Ok((c, name))) =>
        var ref := ChannelRef(Some(c), name, false);
        var ev1 := ev.(channel := ref);
        QuietWriteKeepsInv(s, ev.id, SetChannel(ref, now), created, None);
        GetAfterWrite(s.db.events, ev.id, SetChannel(ref, now), ev.id);
        var s1 := s.(chat := chat, db := PutEvent(s.db, ev.id, SetChannel(ref, now)));
        SameEventsKeepInv(s.(db := s1.db), s1, created, None);
        if !input.posts {
          AbortKeepsInv(s1, ev1, now, created);
        } else {
          ScheduleKeepsInv(s1, ws, ev1, now, created, None);
          ScheduleRemindersOnly(s1.db, ws, ev1, now);
          Roster.ScheduleRemindersFrame(s1.db, ws, ev1, now);
          var s2 := s1.(db := ScheduleReminders(s1.db, ws, ev1, now).0);
          AutoEndEnqueued(s2, ev.id, ev1.AutoEndAt(ws.autoEndGrace), now, created);
        }
    }
  }

  lemma CreateKeepsInv(s: State, input: CreateInput, now: int, created: set<nat>)
    requires Inv(s, created, None)
    ensures var (s', r) := Create(s, input, now);
            Inv(s', if r.Ok? then created + {r.value} else created, None)
  {
    if input.online && input.params.workspaceId in s.workspaces {
      var ws := s.workspaces[input.params.workspaceId];
      if ValidNewEvent(Params(input, ws), now) {
        var ev := FreshEvent(Params(input, ws), s.db.nextId, now);
        FreshEventKeepsInv(s, ev, created);
        var s1 := Roster.WithEvent(s, ev);
        var (db, _, _) := UpsertPart(s1.db, Entry(ev.id, ev.workspaceId, ev.organizer, Participant, None), now);
        PartsKeepInv(s1, s1.chat, db.parts, db.nextId, created, None);
        QuietWriteKeepsInv(s1.(db := db), ev.id, CountBy(1, now), created, None);
        GetAfterWrite(db.events, ev.id, CountBy(1, now), ev.id);
        ProvisionKeepsInv(s1.(db := RegisterOrganizer(s1.db, ev, now)), input, ws, ev.(participantCount := 1), now, created);
      }
    }
  }

  // ----- a worker's turn

  /** The job whose turn it is, as stored. */
  ghost predicate OnTurn(s: State, job: Job) {
    exists i :: 0 <= i < |s.db.jobs| && s.db.jobs[i] == job
  }

  lemma TurnStarts(s: State, lease: int, now: int, created: set<nat>)
    requires Inv(s, created, None) && ClaimJob(s, lease, now).1.Some?
    ensures var (s', job) := ClaimJob(s, lease, now);
      && Inv(s', created, Some(job.value.id)) && OnTurn(s', job.value)
      && JobShapes.Shaped(job.value) && job.value.status == Running && job.value.attempts == 1
      && (job.value.kind == Archive || OpenIn(s'.db.events, job.value.eventId))
      && s' == s.(db := s.db.(jobs := s'.db.jobs))
  {
    var i := Best(s.db.jobs, now, |s.db.jobs|).value;
    assert JobOk(s.db.jobs[i], s.db.events, None);
    assert JobShapes.Shaped(s.db.jobs[i]);
    var s' := ClaimJob(s, lease, now).0;
    JobShapes.ClaimSame(s.db.jobs, now, lease);
    JobShapes.SameJobsKeepInv(s.db, s'.db);
    var turn := Some(s.db.jobs[i].id);
    assert s'.db.jobs[i] == ClaimJob(s, lease, now).1.value;
    forall k | 0 <= k < |s'.db.jobs|
      ensures JobOk(s'.db.jobs[k], s'.db.events, turn)
    {
      assert JobOk(s.db.jobs[k], s.db.events, None);
    }
    forall id | id in created && OpenIn(s.db.events, id)
      ensures HasAutoEnd(s'.db.jobs, id, turn)
    {
      var k :| 0 <= k < |s.db.jobs| && s.db.jobs[k].kind == AutoEnd && s.db.jobs[k].eventId == id && Alive(s.db.jobs[k], None);
      assert Alive(s'.db.jobs[k], turn);
    }
  }

  /** Writing the result ends the turn. A completed job must not be the auto-end of an event
      that is still open; a rescheduled one must belong to an open event. */
  lemma TurnEnds(s: State, job: Job, write: Jobs.Write, now: int, created: set<nat>)
    requires Inv(s, created, Some(job.id)) && OnTurn(s, job)
    requires write.Complete? || (write.Reschedule? && job.attempts == 1 && OpenIn(s.db.events, job.eventId))
    requires write.Complete? && job.kind == AutoEnd ==> !OpenIn(s.db.events, job.eventId)
    ensures Inv(WriteJob(s, job.id, write, now), created, None)
  {
    var i :| 0 <= i < |s.db.jobs| && s.db.jobs[i] == job;
    var s' := WriteJob(s, job.id, write, now);
    assert Find(s.db.jobs, job.id) == Some(i);
    JobShapes.WriteBackSame(s.db.jobs, job.id, write, now);
    JobShapes.SameJobsKeepInv(s.db, s'.db);
    forall k | 0 <= k < |s'.db.jobs|
      ensures JobOk(s'.db.jobs[k], s'.db.events, None)
    {
      assert JobOk(s.db.jobs[k], s.db.events, Some(job.id));
    }
    forall id | id in created && OpenIn(s.db.events, id)
      ensures HasAutoEnd(s'.db.jobs, id, None)
    {
      var k :| 0 <= k < |s.db.jobs| && s.db.jobs[k].kind == AutoEnd && s.db.jobs[k].eventId == id
               && Alive(s.db.jobs[k], Some(job.id));
      assert Alive(s'.db.jobs[k], None);
    }
  }

  lemma PeekTurn(s: State, job: Job, now: int, created: set<nat>)
    requires Inv(s, created, Some(job.id)) && OnTurn(s, job) && Roster.Inv(s)
    requires job.kind == PeekExpire && job.attempts == 1 && OpenIn(s.db.events, job.eventId)
    ensures var (s', handled) := Handle(s, job, now); Inv(WriteHandled(s', job, handled, now), created, None)
  {
    var i := FindId(s.db.parts, job.payload.participationId);
    if i.Some? && s.db.parts[i.value].role == Peeker && s.db.parts[i.value].IsActive() {
      var part := s.db.parts[i.value];
      if part.PeekExpired(now) {
        var ev := GetEvent(s.db.events, part.eventId);
        if ev.Some? {
          DetachKeepsInv(s, ev.value, i.value, Expired, now, created, Some(job.id));
          TurnEnds(Detach(s, ev.value, part, Expired, now).0, job, Complete, now, created);
        } else {
          TurnEnds(s, job, Complete, now, created);
        }
      } else if part.expiresAt.Some? {
        TurnEnds(s, job, Reschedule(part.expiresAt.value), now, created);
      } else {
        TurnEnds(s, job, Complete, now, created);
      }
    } else {
      TurnEnds(s, job, Complete, now, created);
    }
  }

  /** Closing leaves running jobs alone. */
  lemma CloseKeepsTurn(s: State, eventId: nat, reason: EndReason, actor: Actor, now: int, job: Job)
    requires OnTurn(s, job) && job.status == Running
    ensures OnTurn(Close(s, eventId, reason, actor, now).0, job)
  {
    var i :| 0 <= i < |s.db.jobs| && s.db.jobs[i] == job;
    var s' := Close(s, eventId, reason, actor, now).0;
    assert s'.db.jobs[i] == job;
  }

  /** The auto-end of an event that is due closes it; of one that is not, waits. */
  lemma AutoEndTurn(s: State, job: Job, now: int, created: set<nat>)
    requires Inv(s, created, Some(job.id)) && OnTurn(s, job) && JobShapes.Shaped(job)
    requires job.kind == AutoEnd && job.attempts == 1 && job.status == Running && OpenIn(s.db.events, job.eventId)
    ensures var (s', handled) := Handle(s, job, now); Inv(WriteHandled(s', job, handled, now), created, None)
  {
    var ev := GetEvent(s.db.events, job.eventId).value;
    var at := ev.AutoEndAt(s.workspaces[ev.workspaceId].autoEndGrace);
    if at > now {
      TurnEnds(s, job, Reschedule(at), now, created);
    } else {
      var actor := Actor("", true);
      CloseKeepsInv(s, ev.id, Auto, actor, now, created, Some(job.id));
      CloseKeepsTurn(s, ev.id, Auto, actor, now, job);
      CloseCloses(s, ev.id, Auto, actor, now);
      TurnEnds(Close(s, ev.id, Auto, actor, now).0, job, Complete, now, created);
    }
  }

  /** A permitted close leaves no open event behind. */
  lemma CloseCloses(s: State, eventId: nat, reason: EndReason, actor: Actor, now: int)
    requires GetEvent(s.db.events, eventId).Some? && MayManage(GetEvent(s.db.events, eventId).value, actor)
    ensures !OpenIn(Close(s, eventId, reason, actor, now).0.db.events, eventId)
  {
    var ev := GetEvent(s.db.events, eventId).value;
    GetAfterWrite(s.db.events, eventId, Overwrite(Closed(ev, CloseStatus(reason), reason, now)), eventId);
  }

  lemma OtherTurn(s: State, job: Job, now: int, created: set<nat>)
    requires Inv(s, created, Some(job.id)) && OnTurn(s, job) && JobShapes.Shaped(job)
    requires job.kind == Reminder || job.kind == Archive
    requires job.status == Running
    ensures var (s', handled) := Handle(s, job, now); Inv(WriteHandled(s', job, handled, now), created, None)
  {
    var s' := Handle(s, job, now).0;
    if job.kind == Reminder {
      SameEventsKeepInv(s, s', created, Some(job.id));
    } else {
      ArchiveKeepsInv(s, job.payload.eventId, now, created, Some(job.id));
    }
    TurnEnds(s', job, Complete, now, created);
  }

  lemma JobKeepsInv(s: State, lease: int, now: int, created: set<nat>)
    requires Inv(s, created, None) && Roster.Inv(s)
    ensures Inv(RunJob(s, lease, now), created, None)
  {
    match ClaimJob(s, lease, now) {
      case (s1, None) =>
      case (s1, Some(job)) =>
        TurnStarts(s, lease, now, created);
        Roster.JobsKeepInv(s, s1.db.jobs);
        match job.kind {
          case PeekExpire => PeekTurn(s1, job, now, created);
          case AutoEnd => AutoEndTurn(s1, job, now, created);
          case _ => OtherTurn(s1, job, now, created);
        }
    }
  }
}
