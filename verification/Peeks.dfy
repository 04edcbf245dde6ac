/** Peeks expire, on time and no earlier: in crash-free sequential runs an active peeker of an
    open event has an expiry job in the queue unless the promotion of somebody else canceled
    it, and then has none until the user peeks again. */
module Peeks {
  import opened Common
  import opened Jobs
  import opened Reminders
  import opened Participations
  import opened Events
  import opened Manager
  import opened Lifecycle
  import JobShapes
  import Roster

  // ----- the invariant

  /** An expiry job of a record names its event and carries a count it has reached. */
  ghost predicate Counted(job: Job, part: Participation) {
    job.kind == PeekExpire && job.payload.participationId == part.id ==>
      job.key.PeekKey? && job.key.count <= part.peekCount && job.eventId == part.eventId
  }

  /** The job will look at this peek no later than it expires, or is doing so now. */
  ghost predicate Expires(job: Job, part: Participation, turn: Option<nat>) {
    && job.kind == PeekExpire && job.payload.participationId == part.id
    && (Some(job.id) == turn || (job.status == Pending && part.expiresAt.Some? && job.runAt <= part.expiresAt.value))
  }

  ghost predicate HasExpiry(jobs: seq<Job>, part: Participation, turn: Option<nat>) {
    exists i :: 0 <= i < |jobs| && Expires(jobs[i], part, turn)
  }

  ghost predicate Peeking(part: Participation) {
    part.IsActive() && part.role == Peeker
  }

  /** An expiry job of this record that has not come to its end. */
  ghost predicate LiveExpiry(job: Job, id: nat) {
    job.kind == PeekExpire && job.payload.participationId == id && job.Live()
  }

  ghost predicate NoExpiry(jobs: seq<Job>, id: nat) {
    forall i :: 0 <= i < |jobs| ==> !LiveExpiry(jobs[i], id)
  }

  /** `stranded` are the records whose expiry job was canceled by somebody else's promotion. */
  ghost predicate PeekOk(part: Participation, s: State, stranded: set<nat>, turn: Option<nat>) {
    && (Peeking(part) ==> part.expiresAt.Some?)
    && (Peeking(part) && OpenIn(s.db.events, part.eventId) && part.id !in stranded ==> HasExpiry(s.db.jobs, part, turn))
    && (part.id in stranded ==> NoExpiry(s.db.jobs, part.id))
  }

  ghost predicate PeekInv(s: State, stranded: set<nat>, turn: Option<nat>) {
    && (forall i, k :: 0 <= i < |s.db.jobs| && 0 <= k < |s.db.parts| ==> Counted(s.db.jobs[i], s.db.parts[k]))
    && (forall k :: 0 <= k < |s.db.parts| ==> PeekOk(s.db.parts[k], s, stranded, turn))
  }

  // ----- steps that are not about peeks

  /** Expiry jobs of events that are still open are untouched, none is added, and none that
      came to its end is revived. */
  ghost predicate Kept(jobs: seq<Job>, jobs': seq<Job>, events': seq<Event>) {
    && |jobs| <= |jobs'|
    && (forall i :: 0 <= i < |jobs| ==> JobShapes.SameIdentity(jobs[i], jobs'[i]))
    && (forall i :: 0 <= i < |jobs| && jobs[i].kind == PeekExpire && OpenIn(events', jobs[i].eventId) ==> jobs'[i] == jobs[i])
    && NoneRevived(jobs, jobs')
    && (forall i :: |jobs| <= i < |jobs'| ==> jobs'[i].kind != PeekExpire)
  }

  ghost predicate NoneRevived(jobs: seq<Job>, jobs': seq<Job>)
    requires |jobs| <= |jobs'|
  {
    forall i :: 0 <= i < |jobs| && jobs[i].kind == PeekExpire && !jobs[i].Live() ==> !jobs'[i].Live()
  }

  lemma KeptTransitive(a: seq<Job>, b: seq<Job>, c: seq<Job>, events: seq<Event>)
    requires Kept(a, b, events) && Kept(b, c, events)
    ensures Kept(a, c, events)
  {
    forall i | 0 <= i < |a|
      ensures JobShapes.SameIdentity(a[i], c[i])
      ensures a[i].kind == PeekExpire && OpenIn(events, a[i].eventId) ==> c[i] == a[i]
    {
      assert JobShapes.SameIdentity(a[i], b[i]) && JobShapes.SameIdentity(b[i], c[i]);
    }
    forall i | |a| <= i < |c|
      ensures c[i].kind != PeekExpire
    {
      if i < |b| {
        assert JobShapes.SameIdentity(b[i], c[i]);
      }
    }
  }

  ghost predicate NoReopening(events: seq<Event>, events': seq<Event>, parts: seq<Participation>) {
    forall k :: 0 <= k < |parts| && OpenIn(events', parts[k].eventId) ==> OpenIn(events, parts[k].eventId)
  }

  lemma KeptKeepsInv(s: State, s': State, stranded: set<nat>, turn: Option<nat>)
    requires PeekInv(s, stranded, turn) && s'.db.parts == s.db.parts
    requires Kept(s.db.jobs, s'.db.jobs, s'.db.events) && NoReopening(s.db.events, s'.db.events, s.db.parts)
    ensures PeekInv(s', stranded, turn)
  {
    forall i, k | 0 <= i < |s'.db.jobs| && 0 <= k < |s'.db.parts|
      ensures Counted(s'.db.jobs[i], s'.db.parts[k])
    {
      if i < |s.db.jobs| {
        assert JobShapes.SameIdentity(s.db.jobs[i], s'.db.jobs[i]) && Counted(s.db.jobs[i], s.db.parts[k]);
      }
    }
    forall k | 0 <= k < |s'.db.parts|
      ensures PeekOk(s'.db.parts[k], s', stranded, turn)
    {
      var part := s.db.parts[k];
      assert PeekOk(part, s, stranded, turn);
      if part.id in stranded {
        NoExpiryStays(s.db.jobs, s'.db.jobs, part.id);
      }
      if Peeking(part) && OpenIn(s'.db.events, part.eventId) && part.id !in stranded {
        var i :| 0 <= i < |s.db.jobs| && Expires(s.db.jobs[i], part, turn);
        assert Counted(s.db.jobs[i], part);
        assert Expires(s'.db.jobs[i], part, turn);
      }
    }
  }

  lemma NoExpiryStays(jobs: seq<Job>, jobs': seq<Job>, id: nat)
    requires NoExpiry(jobs, id) && |jobs| <= |jobs'| && NoneRevived(jobs, jobs')
    requires forall i :: 0 <= i < |jobs| ==> JobShapes.SameIdentity(jobs[i], jobs'[i])
    requires forall i :: |jobs| <= i < |jobs'| && jobs'[i].kind == PeekExpire ==> jobs'[i].payload.participationId != id
    ensures NoExpiry(jobs', id)
  {
    forall i | 0 <= i < |jobs'|
      ensures !LiveExpiry(jobs'[i], id)
    {
      if i < |jobs| {
        assert JobShapes.SameIdentity(jobs[i], jobs'[i]) && !LiveExpiry(jobs[i], id);
      }
    }
  }

  lemma EnqueueKept(db: Db, job: Job, now: int)
    requires job.kind != PeekExpire
    ensures Kept(db.jobs, EnqueueJob(db, job, now).jobs, db.events)
  {
  }

  lemma {:induction false} RemindersKept(db: Db, eventId: nat, sequence: int, times: seq<int>, now: int)
    ensures Kept(db.jobs, EnqueueReminders(db, eventId, sequence, times, now).jobs, db.events)
    decreases |times|
  {
    if times != [] {
      if SentAt(db.logs, eventId, times[0]) {
        RemindersKept(db, eventId, sequence, times[1..], now);
      } else {
        var db1 := EnqueueJob(db, NewReminderJob(eventId, sequence, times[0]), now);
        EnqueueKept(db, NewReminderJob(eventId, sequence, times[0]), now);
        RemindersKept(db1, eventId, sequence + 1, times[1..], now);
        KeptTransitive(db.jobs, db1.jobs, EnqueueReminders(db, eventId, sequence, times, now).jobs, db.events);
      }
    }
  }

  lemma ScheduleKept(db: Db, ws: Settings, ev: Event, now: int)
    ensures Kept(db.jobs, ScheduleReminders(db, ws, ev, now).0.jobs, db.events)
  {
    var db1 := CancelJobs(db, ev.id, [Reminder], now);
    assert Kept(db.jobs, db1.jobs, db.events);
    match Times(ev, ws.zone, now) {
      case Err(_) =>
      case Ok(times) =>
        var sequence := HighestSequence(db1.jobs, ev.id) + 1;
        RemindersKept(db1, ev.id, sequence, times, now);
        KeptTransitive(db.jobs, db1.jobs, EnqueueReminders(db1, ev.id, sequence, times, now).jobs, db.events);
    }
  }

  /** Writing one event opens no other, nor itself unless it was open. */
  lemma WriteOpensNothing(events: seq<Event>, id: nat, write: EventWrite, parts: seq<Participation>)
    requires write.Overwrite? ==> OpenIn(events, id)
    ensures NoReopening(events, WriteEvent(events, id, write), parts)
  {
    forall other
      ensures OpenIn(WriteEvent(events, id, write), other) ==> OpenIn(events, other)
    {
      GetAfterWrite(events, id, write, other);
    }
  }

  lemma UpdateKeepsPeeks(s: State, eventId: nat, u: EventUpdate, actor: Actor, now: int, stranded: set<nat>)
    requires PeekInv(s, stranded, None)
    ensures PeekInv(Update(s, eventId, u, actor, now).0, stranded, None)
  {
    var found := GetEvent(s.db.events, eventId);
    if found.Some? && found.value.IsOpen() && ValidEdit(found.value, u, now) && found.value.workspaceId in s.workspaces
       && MayManage(found.value, actor) {
      var next := Edited(found.value, u, now);
      var db1 := PutEvent(s.db, eventId, Overwrite(next));
      WriteOpensNothing(s.db.events, eventId, Overwrite(next), s.db.parts);
      ScheduleKept(db1, s.workspaces[found.value.workspaceId], next, now);
      Roster.ScheduleRemindersFrame(db1, s.workspaces[found.value.workspaceId], next, now);
      KeptKeepsInv(s, Update(s, eventId, u, actor, now).0, stranded, None);
    }
  }

  lemma CloseKeepsPeeks(s: State, eventId: nat, reason: EndReason, actor: Actor, now: int,
                        stranded: set<nat>, turn: Option<nat>)
    requires PeekInv(s, stranded, turn)
    ensures PeekInv(Close(s, eventId, reason, actor, now).0, stranded, turn)
  {
    var found := GetEvent(s.db.events, eventId);
    if found.Some? && found.value.IsOpen() && MayManage(found.value, actor) {
      var write := Overwrite(Closed(found.value, CloseStatus(reason), reason, now));
      WriteOpensNothing(s.db.events, eventId, write, s.db.parts);
      CloseCloses(s, eventId, reason, actor, now);
      KeptKeepsInv(s, Close(s, eventId, reason, actor, now).0, stranded, turn);
    }
  }

  lemma ArchiveKeepsPeeks(s: State, eventId: nat, now: int, stranded: set<nat>, turn: Option<nat>)
    requires PeekInv(s, stranded, turn)
    ensures PeekInv(ArchiveChannel(s, eventId, now).0, stranded, turn)
  {
    var found := GetEvent(s.db.events, eventId);
    if found.Some? {
      WriteOpensNothing(s.db.events, eventId, SetChannel(found.value.channel.(archived := true), now), s.db.parts);
    }
    KeptKeepsInv(s, ArchiveChannel(s, eventId, now).0, stranded, turn);
  }

  // ----- steps that change one record

  /** One record was rewritten in place, or a new one appended. */
  ghost predicate Rewritten(parts: seq<Participation>, parts': seq<Participation>, part: Participation) {
    || (parts' == parts + [part] && forall k :: 0 <= k < |parts| ==> parts[k].id != part.id)
    || exists k :: 0 <= k < |parts| && RewrittenAt(parts, parts', part, k)
  }

  ghost predicate RewrittenAt(parts: seq<Participation>, parts': seq<Participation>, part: Participation, k: nat)
    requires k < |parts|
  {
    parts' == parts[k := part] && part.id == parts[k].id
  }

  ghost predicate OwnIds(parts: seq<Participation>) {
    forall i, j :: 0 <= i < j < |parts| ==> parts[i].id != parts[j].id
  }

  /** The other records are as they were, and have other ids. */
  lemma RewrittenCovers(parts: seq<Participation>, parts': seq<Participation>, part: Participation, k: nat)
    requires Rewritten(parts, parts', part) && OwnIds(parts) && k < |parts'|
    ensures parts'[k] == part || exists j :: 0 <= j < |parts| && parts[j] == parts'[k] && parts[j].id != part.id
  {
    if parts' != parts + [part] {
      var j :| 0 <= j < |parts| && RewrittenAt(parts, parts', part, j);
      assert k != j ==> parts'[k] == parts[k] && parts[k].id != part.id;
    } else if k < |parts| {
      assert parts'[k] == parts[k];
    }
  }

  /** A record is carried through a step: its expiry jobs stay as they are, or it is stranded
      and has none left. */
  ghost predicate Carried(other: Participation, jobs: seq<Job>, jobs': seq<Job>, stranded: set<nat>, stranded': set<nat>)
    requires |jobs| <= |jobs'|
  {
    if other.id in stranded' then other.id in stranded || NoExpiry(jobs', other.id)
    else Peeking(other) ==>
           && other.id !in stranded
           && forall i :: 0 <= i < |jobs| && jobs[i].kind == PeekExpire && jobs[i].payload.participationId == other.id ==>
                jobs'[i] == jobs[i]
  }

  /** What a step does to the jobs while it changes one record. */
  ghost predicate JobsBeside(s: State, s': State, part: Participation) {
    && |s.db.jobs| <= |s'.db.jobs|
    && (forall i :: 0 <= i < |s.db.jobs| ==> JobShapes.SameIdentity(s.db.jobs[i], s'.db.jobs[i]))
    && NoneRevived(s.db.jobs, s'.db.jobs)
    && (forall i :: |s.db.jobs| <= i < |s'.db.jobs| && s'.db.jobs[i].kind == PeekExpire ==>
          s'.db.jobs[i].payload.participationId == part.id)
    && (forall i :: 0 <= i < |s'.db.jobs| ==> Counted(s'.db.jobs[i], part))
  }

  /** The step kept the invariant when it kept it for the one record and carried the others. */
  lemma RecordKeepsPeeks(s: State, s': State, part: Participation, stranded: set<nat>, stranded': set<nat>, turn: Option<nat>)
    requires PeekInv(s, stranded, turn) && OwnIds(s.db.parts)
    requires Rewritten(s.db.parts, s'.db.parts, part) && JobsBeside(s, s', part)
    requires forall id :: OpenIn(s'.db.events, id) ==> OpenIn(s.db.events, id)
    requires forall k :: 0 <= k < |s.db.parts| && s.db.parts[k].id != part.id ==>
               Carried(s.db.parts[k], s.db.jobs, s'.db.jobs, stranded, stranded')
    requires PeekOk(part, s', stranded', turn)
    ensures PeekInv(s', stranded', turn)
  {
    forall k | 0 <= k < |s'.db.parts|
      ensures PeekOk(s'.db.parts[k], s', stranded', turn)
      ensures forall i :: 0 <= i < |s'.db.jobs| ==> Counted(s'.db.jobs[i], s'.db.parts[k])
    {
      RewrittenCovers(s.db.parts, s'.db.parts, part, k);
      if s'.db.parts[k] != part {
        var j :| 0 <= j < |s.db.parts| && s.db.parts[j] == s'.db.parts[k] && s.db.parts[j].id != part.id;
        OtherKeepsPeek(s, s', part, j, stranded, stranded', turn);
      }
    }
  }

  lemma OtherKeepsPeek(s: State, s': State, part: Participation, j: nat, stranded: set<nat>, stranded': set<nat>, turn: Option<nat>)
    requires PeekInv(s, stranded, turn) && JobsBeside(s, s', part)
    requires forall id :: OpenIn(s'.db.events, id) ==> OpenIn(s.db.events, id)
    requires j < |s.db.parts| && s.db.parts[j].id != part.id
    requires Carried(s.db.parts[j], s.db.jobs, s'.db.jobs, stranded, stranded')
    ensures PeekOk(s.db.parts[j], s', stranded', turn)
    ensures forall i :: 0 <= i < |s'.db.jobs| ==> Counted(s'.db.jobs[i], s.db.parts[j])
  {
    var other := s.db.parts[j];
    assert PeekOk(other, s, stranded, turn);
    forall i | 0 <= i < |s'.db.jobs|
      ensures Counted(s'.db.jobs[i], other)
    {
      if i < |s.db.jobs| {
        assert JobShapes.SameIdentity(s.db.jobs[i], s'.db.jobs[i]) && Counted(s.db.jobs[i], other);
      }
    }
    if other.id in stranded' {
      if other.id in stranded {
        NoExpiryStays(s.db.jobs, s'.db.jobs, other.id);
      }
    } else if Peeking(other) && OpenIn(s'.db.events, other.eventId) {
      var i :| 0 <= i < |s.db.jobs| && Expires(s.db.jobs[i], other, turn);
      assert Expires(s'.db.jobs[i], other, turn);
    }
  }

  /** Jobs never refer to a record that does not exist yet. */
  lemma FreshIsCounted(s: State, part: Participation)
    requires JobShapes.Inv(s.db) && part.id >= s.db.nextId
    ensures forall i :: 0 <= i < |s.db.jobs| ==> Counted(s.db.jobs[i], part)
    ensures NoExpiry(s.db.jobs, part.id)
  {
  }

  lemma UpsertCounted(s: State, entry: Entry, now: int, stranded: set<nat>)
    requires PeekInv(s, stranded, None) && JobShapes.Inv(s.db) && Roster.PartsOk(s.db.parts, s.db.nextId, s.chat.bot)
    ensures var (db, _, after) := UpsertPart(s.db, entry, now);
      && Rewritten(s.db.parts, db.parts, after)
      && after.eventId == entry.eventId && after.userId == entry.userId
      && (after.id in stranded ==> NoExpiry(s.db.jobs, after.id))
      && forall i :: 0 <= i < |s.db.jobs| ==> Counted(s.db.jobs[i], after)
  {
    match FindUser(s.db.parts, entry.eventId, entry.userId) {
      case None => FreshIsCounted(s, Created(entry, s.db.nextId, now));
      case Some(k) =>
        assert RewrittenAt(s.db.parts, UpsertPart(s.db, entry, now).0.parts, Renewed(s.db.parts[k], entry, now), k);
        assert PeekOk(s.db.parts[k], s, stranded, None);
        forall i | 0 <= i < |s.db.jobs|
          ensures Counted(s.db.jobs[i], Renewed(s.db.parts[k], entry, now))
        {
          assert Counted(s.db.jobs[i], s.db.parts[k]);
        }
    }
  }

  lemma CountOpensNothing(events: seq<Event>, id: nat, delta: int, now: int)
    ensures forall other :: OpenIn(WriteEvent(events, id, CountBy(delta, now)), other) == OpenIn(events, other)
  {
    forall other
      ensures OpenIn(WriteEvent(events, id, CountBy(delta, now)), other) == OpenIn(events, other)
    {
      GetAfterWrite(events, id, CountBy(delta, now), other);
    }
  }

  /** A new peek raises the count, so its expiry job has a fresh key and is stored. */
  lemma PeekIsEnqueued(s: State, entry: Entry, now: int, stranded: set<nat>)
    requires PeekInv(s, stranded, None) && JobShapes.Inv(s.db) && Roster.PartsOk(s.db.parts, s.db.nextId, s.chat.bot)
    requires entry.role == Peeker && entry.expiresAt.Some?
    requires DecideTransition(At(s.db.parts, FindUser(s.db.parts, entry.eventId, entry.userId)), Peek).change == Peeked
    ensures var (db, _, after) := UpsertPart(s.db, entry, now);
      && !Duplicate(db.jobs, NewPeekExpireJob(entry.eventId, after.id, after.peekCount, entry.expiresAt.value))
      && Peeking(after) && after.expiresAt == entry.expiresAt
  {
    var (db, _, after) := UpsertPart(s.db, entry, now);
    UpsertCounted(s, entry, now, stranded);
    var job := NewPeekExpireJob(entry.eventId, after.id, after.peekCount, entry.expiresAt.value);
    forall i | 0 <= i < |s.db.jobs|
      ensures s.db.jobs[i].key != job.key
    {
      assert JobShapes.Shaped(s.db.jobs[i]);
      var k := FindUser(s.db.parts, entry.eventId, entry.userId);
      assert k.Some? ==> Counted(s.db.jobs[i], s.db.parts[k.value]);
    }
  }

  /** The records of this user in this event, or of all its other active peekers. */
  ghost function OwnRecords(parts: seq<Participation>, eventId: nat, user: string): set<nat> {
    set k | 0 <= k < |parts| && parts[k].eventId == eventId && parts[k].userId == user :: parts[k].id
  }

  ghost function OtherPeekers(parts: seq<Participation>, eventId: nat, user: string): set<nat> {
    set k | 0 <= k < |parts| && parts[k].eventId == eventId && parts[k].userId != user && Peeking(parts[k]) :: parts[k].id
  }

  /** A promotion strands the other peekers of the event; whoever peeks again is not stranded. */
  ghost function StrandedAfter(stranded: set<nat>, parts: seq<Participation>, eventId: nat, user: string, t: Transition): set<nat> {
    match t.change
    case Promoted => stranded + OtherPeekers(parts, eventId, user)
    case Peeked => stranded - OwnRecords(parts, eventId, user)
    case _ => stranded
  }

  /** No worker is at work. */
  ghost predicate Idle(jobs: seq<Job>) {
    forall i :: 0 <= i < |jobs| ==> jobs[i].status != Running
  }

  /** The effects of a press, case by case: a join leaves nothing to expire, a promotion
      cancels the expiry jobs of its event, a peek gets its own job. */
  lemma PressKeepsPeeks(s: State, s': State, ev: Event, ws: Settings, user: string, action: Action, t: Transition, now: int,
                        stranded: set<nat>)
    requires PeekInv(s, stranded, None) && JobShapes.Inv(s.db) && Roster.Inv(s) && Idle(s.db.jobs)
    requires t == DecideTransition(At(s.db.parts, FindUser(s.db.parts, ev.id, user)), action)
    requires t.addToChannel || t.cancelPeekJob
    requires var (db, _, after) := UpsertPart(s.db, Roster.EntryOf(ev, ws, user, t, now), now);
             s'.db == AfterTransition(db, ev, after, t, now)
    ensures PeekInv(s', StrandedAfter(stranded, s'.db.parts, ev.id, user, t), None)
  {
    var entry := Roster.EntryOf(ev, ws, user, t, now);
    var (db, _, after) := UpsertPart(s.db, entry, now);
    UpsertCounted(s, entry, now, stranded);
    CountOpensNothing(s.db.events, ev.id, 1, now);
    AfterIsItsOwn(s, entry, now);
    if t.change == Peeked {
      PeekIsEnqueued(s, entry, now, stranded);
      PeekedKeepsPeeks(s, s', after, now, stranded, ev.id, user, t);
    } else if t.change == Promoted {
      PromotedKeepsPeeks(s, s', after, now, stranded, ev.id, user, t);
    } else {
      JoinedKeepsPeeks(s, s', after, stranded);
    }
  }

  lemma JoinedKeepsPeeks(s: State, s': State, after: Participation, stranded: set<nat>)
    requires PeekInv(s, stranded, None) && Roster.PartsOk(s.db.parts, s.db.nextId, s.chat.bot)
    requires Rewritten(s.db.parts, s'.db.parts, after) && s'.db.jobs == s.db.jobs
    requires forall i :: 0 <= i < |s.db.jobs| ==> Counted(s.db.jobs[i], after)
    requires forall id :: OpenIn(s'.db.events, id) ==> OpenIn(s.db.events, id)
    requires !Peeking(after) && (after.id in stranded ==> NoExpiry(s.db.jobs, after.id))
    ensures PeekInv(s', stranded, None)
  {
    RecordKeepsPeeks(s, s', after, stranded, stranded, None);
  }

  /** Among the records afterwards the upserted one is the only one of its user and its id. */
  lemma AfterIsItsOwn(s: State, entry: Entry, now: int)
    requires Roster.PartsOk(s.db.parts, s.db.nextId, s.chat.bot)
    ensures var (db, _, after) := UpsertPart(s.db, entry, now); Its(db.parts, after, entry.eventId, entry.userId)
  {
    var (db, _, after) := UpsertPart(s.db, entry, now);
    match FindUser(s.db.parts, entry.eventId, entry.userId) {
      case None => assert db.parts[|s.db.parts|] == after;
      case Some(i) => assert db.parts[i] == after;
    }
  }

  ghost predicate Its(parts: seq<Participation>, part: Participation, eventId: nat, user: string) {
    && (exists k :: 0 <= k < |parts| && parts[k] == part)
    && forall k :: 0 <= k < |parts| ==>
         && (parts[k].id == part.id <==> parts[k] == part)
         && (parts[k].eventId == eventId && parts[k].userId == user <==> parts[k] == part)
  }

  lemma PeekedKeepsPeeks(s: State, s': State, after: Participation, now: int, stranded: set<nat>,
                         eventId: nat, user: string, t: Transition)
    requires PeekInv(s, stranded, None) && Roster.PartsOk(s.db.parts, s.db.nextId, s.chat.bot) && t.change == Peeked
    requires Rewritten(s.db.parts, s'.db.parts, after) && Its(s'.db.parts, after, eventId, user) && after.eventId == eventId
    requires forall i :: 0 <= i < |s.db.jobs| ==> Counted(s.db.jobs[i], after)
    requires forall id :: OpenIn(s'.db.events, id) ==> OpenIn(s.db.events, id)
    requires Peeking(after) && after.expiresAt.Some?
    requires exists id ::
               s'.db.jobs == s.db.jobs + [Stored(NewPeekExpireJob(eventId, after.id, after.peekCount, after.expiresAt.value), id, now)]
    ensures PeekInv(s', StrandedAfter(stranded, s'.db.parts, eventId, user, t), None)
  {
    var stranded' := StrandedAfter(stranded, s'.db.parts, eventId, user, t);
    var last := |s.db.jobs|;
    assert Expires(s'.db.jobs[last], after, None);
    assert stranded' == stranded - {after.id};
    forall i | 0 <= i < last
      ensures s'.db.jobs[i] == s.db.jobs[i]
    {
    }
    RecordKeepsPeeks(s, s', after, stranded, stranded', None);
  }

  lemma PromotedKeepsPeeks(s: State, s': State, after: Participation, now: int, stranded: set<nat>,
                           eventId: nat, user: string, t: Transition)
    requires PeekInv(s, stranded, None) && Roster.PartsOk(s.db.parts, s.db.nextId, s.chat.bot) && t.change == Promoted
    requires Rewritten(s.db.parts, s'.db.parts, after) && Its(s'.db.parts, after, eventId, user) && Idle(s.db.jobs)
    requires forall i :: 0 <= i < |s.db.jobs| ==> Counted(s.db.jobs[i], after)
    requires forall id :: OpenIn(s'.db.events, id) ==> OpenIn(s.db.events, id)
    requires !Peeking(after) && (after.id in stranded ==> NoExpiry(s.db.jobs, after.id))
    requires s'.db.jobs == CancelByEvent(s.db.jobs, eventId, [PeekExpire], now)
    ensures PeekInv(s', StrandedAfter(stranded, s'.db.parts, eventId, user, t), None)
  {
    var stranded' := StrandedAfter(stranded, s'.db.parts, eventId, user, t);
    assert after.id !in OtherPeekers(s'.db.parts, eventId, user);
    if after.id in stranded {
      NoExpiryStays(s.db.jobs, s'.db.jobs, after.id);
    }
    forall k | 0 <= k < |s.db.parts| && s.db.parts[k].id != after.id
      ensures Carried(s.db.parts[k], s.db.jobs, s'.db.jobs, stranded, stranded')
    {
      OtherIsStranded(s, s', after, now, k, stranded, eventId, user);
    }
    RecordKeepsPeeks(s, s', after, stranded, stranded', None);
  }

  /** A promotion leaves the other peekers of its event without expiry jobs, and those of
      other events with theirs. */
  lemma OtherIsStranded(s: State, s': State, after: Participation, now: int, k: nat, stranded: set<nat>, eventId: nat, user: string)
    requires PeekInv(s, stranded, None) && OwnIds(s.db.parts) && Idle(s.db.jobs)
    requires Rewritten(s.db.parts, s'.db.parts, after) && Its(s'.db.parts, after, eventId, user)
    requires k < |s.db.parts| && s.db.parts[k].id != after.id
    requires s'.db.jobs == CancelByEvent(s.db.jobs, eventId, [PeekExpire], now)
    ensures Carried(s.db.parts[k], s.db.jobs, s'.db.jobs, stranded, stranded + OtherPeekers(s'.db.parts, eventId, user))
  {
    var other := s.db.parts[k];
    assert s'.db.parts[k] == other;
    forall i | 0 <= i < |s.db.jobs|
      ensures Counted(s.db.jobs[i], other)
    {
    }
    if other.id in OtherPeekers(s'.db.parts, eventId, user) {
      var j :| 0 <= j < |s'.db.parts| && s'.db.parts[j].id == other.id && s'.db.parts[j].eventId == eventId
               && s'.db.parts[j].userId != user && Peeking(s'.db.parts[j]);
      RewrittenCovers(s.db.parts, s'.db.parts, after, j);
      assert s'.db.parts[j] == other;
      assert NoExpiry(s'.db.jobs, other.id);
    }
  }

  lemma ApplyKeepsPeeks(s: State, s': State, r: Result<Transition, Error>, eventId: nat, user: string, action: Action, now: int,
                        stranded: set<nat>)
    requires PeekInv(s, stranded, None) && JobShapes.Inv(s.db) && Roster.Inv(s) && Idle(s.db.jobs) && user != s.chat.bot
    requires Apply(s, eventId, user, action, now) == (s', r)
    ensures PeekInv(s', if r.Ok? then StrandedAfter(stranded, s'.db.parts, eventId, user, r.value) else stranded, None)
  {
    match OpenEvent(s, eventId) {
      case Err(_) =>
      case Ok((ev, ws)) =>
        var t := DecideTransition(At(s.db.parts, FindUser(s.db.parts, eventId, user)), action);
        if t.addToChannel || t.cancelPeekJob {
          EffectfulPressKeepsPeeks(s, ev, ws, user, action, t, now, stranded);
        }
    }
  }

  lemma EffectfulPressKeepsPeeks(s: State, ev: Event, ws: Settings, user: string, action: Action, t: Transition, now: int,
                                 stranded: set<nat>)
    requires PeekInv(s, stranded, None) && JobShapes.Inv(s.db) && Roster.Inv(s) && Idle(s.db.jobs) && user != s.chat.bot
    requires GetEvent(s.db.events, ev.id) == Some(ev) && (t.addToChannel || t.cancelPeekJob)
    requires t == DecideTransition(At(s.db.parts, FindUser(s.db.parts, ev.id, user)), action)
    ensures var (s', r) := Press(s, ev, ws, user, action, t, now);
            r == Ok(t) && PeekInv(s', StrandedAfter(stranded, s'.db.parts, ev.id, user, t), None)
  {
    Roster.AddMemberMoves(s, ev, user);
    Roster.PressRunsThrough(s, ev, ws, user, action, t, now);
    PressKeepsPeeks(s, Press(s, ev, ws, user, action, t, now).0, ev, ws, user, action, t, now, stranded);
  }

  lemma DetachKeepsPeeks(s: State, ev: Event, i: nat, status: Standing, now: int, stranded: set<nat>, turn: Option<nat>)
    requires PeekInv(s, stranded, turn) && Roster.Inv(s)
    requires i < |s.db.parts| && s.db.parts[i].IsActive() && status != Active
    requires GetEvent(s.db.events, ev.id) == Some(ev) && s.db.parts[i].eventId == ev.id
    ensures PeekInv(Detach(s, ev, s.db.parts[i], status, now).0, stranded, turn)
    ensures Detach(s, ev, s.db.parts[i], status, now).0.db.parts == s.db.parts[i := WithStatus(s.db.parts[i], status, now)]
  {
    var part := s.db.parts[i];
    Roster.SameRecord(s.db.parts, s.db.nextId, s.chat.bot, i);
    Roster.RemoveMemberMoves(s, ev, part.userId);
    Roster.DetachRunsThrough(s, ev, part, status, now);
    CountOpensNothing(s.db.events, ev.id, -1, now);
    var s' := Detach(s, ev, part, status, now).0;
    assert RewrittenAt(s.db.parts, s'.db.parts, WithStatus(part, status, now), i);
    forall k | 0 <= k < |s.db.jobs|
      ensures Counted(s.db.jobs[k], WithStatus(part, status, now))
    {
      assert Counted(s.db.jobs[k], part);
    }
    RecordKeepsPeeks(s, s', WithStatus(part, status, now), stranded, stranded, turn);
  }

  lemma LeaveKeepsPeeks(s: State, eventId: nat, user: string, now: int, stranded: set<nat>)
    requires PeekInv(s, stranded, None) && Roster.Inv(s)
    ensures PeekInv(Leave(s, eventId, user, now).0, stranded, None)
  {
    var i := FindUser(s.db.parts, eventId, user);
    if OpenEvent(s, eventId).Ok? && i.Some? && s.db.parts[i.value].IsActive() {
      DetachKeepsPeeks(s, OpenEvent(s, eventId).value.0, i.value, Left, now, stranded, None);
    }
  }

  lemma RemoveKeepsPeeks(s: State, eventId: nat, user: string, online: bool, now: int, stranded: set<nat>)
    requires PeekInv(s, stranded, None) && Roster.Inv(s)
    ensures PeekInv(Remove(s, eventId, user, online, now).0, stranded, None)
  {
    var i := FindUser(s.db.parts, eventId, user);
    if OpenEvent(s, eventId).Ok? && i.Some? && s.db.parts[i.value].IsActive() {
      DetachKeepsPeeks(s, OpenEvent(s, eventId).value.0, i.value, Removed, now, stranded, None);
    }
  }

  // ----- creating an event

  lemma AbortKept(db: Db, ev: Event, now: int)
    requires OpenIn(db.events, ev.id)
    ensures Kept(db.jobs, AbortProvision(db, ev, now).jobs, AbortProvision(db, ev, now).events)
    ensures forall parts :: NoReopening(db.events, AbortProvision(db, ev, now).events, parts)
    ensures AbortProvision(db, ev, now).parts == db.parts
  {
    if ev.IsOpen() {
      var write := Overwrite(Closed(ev, CanceledEvent, ProvisionFailed, now));
      forall parts
        ensures NoReopening(db.events, WriteEvent(db.events, ev.id, write), parts)
      {
        WriteOpensNothing(db.events, ev.id, write, parts);
      }
      EnqueueKept(PutEvent(db, ev.id, write), NewArchiveJob(ev.id, now), now);
    }
  }

  lemma ProvisionKeepsPeeks(s: State, input: CreateInput, ws: Settings, ev: Event, now: int, stranded: set<nat>)
    requires PeekInv(s, stranded, None) && OpenIn(s.db.events, ev.id)
    ensures PeekInv(Provision(s, input, ws, ev, now).0, stranded, None)
  {
    var names := [input.name, input.name2, input.name3];
    match TryNames(s.chat, names, [ev.organizer]) {
      case (_, Err(e)) =>
        AbortKept(s.db, ev, now);
        KeptKeepsInv(s, s.(db := AbortProvision(s.db, ev, now)), stranded, None);
      case (chat, Ok((c, name))) =>
        var ref := ChannelRef(Some(c), name, false);
        var ev1 := ev.(channel := ref);
        WriteOpensNothing(s.db.events, ev.id, SetChannel(ref, now), s.db.parts);
        GetAfterWrite(s.db.events, ev.id, SetChannel(ref, now), ev.id);
        var s1 := s.(chat := chat, db := PutEvent(s.db, ev.id, SetChannel(ref, now)));
        KeptKeepsInv(s, s1, stranded, None);
        if !input.posts {
          AbortKept(s1.db, ev1, now);
          KeptKeepsInv(s1, s1.(db := AbortProvision(s1.db, ev1, now)), stranded, None);
        } else {
          ScheduleKept(s1.db, ws, ev1, now);
          Roster.ScheduleRemindersFrame(s1.db, ws, ev1, now);
          var s2 := s1.(db := ScheduleReminders(s1.db, ws, ev1, now).0);
          KeptKeepsInv(s1, s2, stranded, None);
          var job := NewAutoEndJob(ev1.id, ev1.AutoEndAt(ws.autoEndGrace));
          EnqueueKept(s2.db, job, now);
          KeptKeepsInv(s2, s2.(db := EnqueueJob(s2.db, job, now)), stranded, None);
        }
    }
  }

  lemma CreateKeepsPeeks(s: State, input: CreateInput, now: int, stranded: set<nat>)
    requires PeekInv(s, stranded, None) && JobShapes.Inv(s.db) && Roster.Inv(s) && input.params.organizer != s.chat.bot
    ensures PeekInv(Create(s, input, now).0, stranded, None)
  {
    if input.online && input.params.workspaceId in s.workspaces {
      var ws := s.workspaces[input.params.workspaceId];
      if ValidNewEvent(Params(input, ws), now) {
        var ev := FreshEvent(Params(input, ws), s.db.nextId, now);
        var s1 := Roster.WithEvent(s, ev);
        forall id
          ensures GetEvent(s1.db.events, id) ==
                  if GetEvent(s.db.events, id).Some? then GetEvent(s.db.events, id) else if ev.id == id then Some(ev) else None
        {
          GetAfterAppend(s.db.events, ev, id);
        }
        KeptKeepsInv(s, s1, stranded, None);
        var entry := Entry(ev.id, ev.workspaceId, ev.organizer, Participant, None);
        Roster.FreshEventKeepsInv(s, ev);
        UpsertCounted(s1, entry, now, stranded);
        var (db, _, after) := UpsertPart(s1.db, entry, now);
        CountOpensNothing(s1.db.events, ev.id, 1, now);
        var s2 := s1.(db := RegisterOrganizer(s1.db, ev, now));
        RecordKeepsPeeks(s1, s2, after, stranded, stranded, None);
        ProvisionKeepsPeeks(s2, input, ws, ev.(participantCount := 1), now, stranded);
      }
    }
  }

  // ----- a worker's turn

  lemma TurnStartsPeeks(s: State, lease: int, now: int, stranded: set<nat>)
    requires PeekInv(s, stranded, None) && ClaimJob(s, lease, now).1.Some?
    ensures var (s', job) := ClaimJob(s, lease, now); PeekInv(s', stranded, Some(job.value.id))
  {
    var (s', claimed) := ClaimJob(s, lease, now);
    var turn := Some(claimed.value.id);
    JobShapes.ClaimSame(s.db.jobs, now, lease);
    forall i, k | 0 <= i < |s'.db.jobs| && 0 <= k < |s'.db.parts|
      ensures Counted(s'.db.jobs[i], s'.db.parts[k])
    {
      assert Counted(s.db.jobs[i], s.db.parts[k]) && JobShapes.SameIdentity(s.db.jobs[i], s'.db.jobs[i]);
    }
    forall k | 0 <= k < |s'.db.parts|
      ensures PeekOk(s'.db.parts[k], s', stranded, turn)
    {
      var part := s.db.parts[k];
      assert PeekOk(part, s, stranded, None);
      if Peeking(part) && OpenIn(s.db.events, part.eventId) && part.id !in stranded {
        var i :| 0 <= i < |s.db.jobs| && Expires(s.db.jobs[i], part, None);
        assert Expires(s'.db.jobs[i], part, turn);
      }
    }
  }

  /** What an expiry job owes its record when it ends its turn. */
  ghost predicate Answered(part: Participation, events: seq<Event>, job: Job, write: Jobs.Write) {
    part.id == job.payload.participationId && Peeking(part) && OpenIn(events, part.eventId) ==>
      write.Reschedule? && part.expiresAt == Some(write.runAt)
  }

  /** The write that ends a turn: an expiry job may be completed once its record is no
      active peeker of an open event, or rescheduled to the moment the peek expires. */
  lemma TurnEndsPeeks(s: State, job: Job, write: Jobs.Write, now: int, stranded: set<nat>)
    requires PeekInv(s, stranded, Some(job.id)) && JobShapes.Inv(s.db) && OnTurn(s, job)
    requires job.status == Running && (write.Complete? || write.Reschedule?)
    requires job.kind == PeekExpire ==>
               forall k :: 0 <= k < |s.db.parts| ==> Answered(s.db.parts[k], s.db.events, job, write)
    ensures PeekInv(WriteJob(s, job.id, write, now), stranded, None)
  {
    var s' := WriteJob(s, job.id, write, now);
    var j :| 0 <= j < |s.db.jobs| && s.db.jobs[j] == job;
    assert Find(s.db.jobs, job.id) == Some(j);
    JobShapes.WriteBackSame(s.db.jobs, job.id, write, now);
    forall i, k | 0 <= i < |s'.db.jobs| && 0 <= k < |s'.db.parts|
      ensures Counted(s'.db.jobs[i], s'.db.parts[k])
    {
      assert Counted(s.db.jobs[i], s.db.parts[k]) && JobShapes.SameIdentity(s.db.jobs[i], s'.db.jobs[i]);
    }
    forall k | 0 <= k < |s'.db.parts|
      ensures PeekOk(s'.db.parts[k], s', stranded, None)
    {
      var part := s.db.parts[k];
      assert PeekOk(part, s, stranded, Some(job.id));
      if part.id in stranded {
        assert !LiveExpiry(s.db.jobs[j], part.id);
        assert forall i :: 0 <= i < |s.db.jobs| && i != j ==> s'.db.jobs[i] == s.db.jobs[i] && !LiveExpiry(s.db.jobs[i], part.id);
      }
      if Peeking(part) && OpenIn(s.db.events, part.eventId) && part.id !in stranded {
        var i :| 0 <= i < |s.db.jobs| && Expires(s.db.jobs[i], part, Some(job.id));
        assert i != j ==> s.db.jobs[i].id != job.id && s'.db.jobs[i] == s.db.jobs[i];
        assert Expires(s'.db.jobs[i], part, None);
      }
    }
  }

  lemma PeekTurnPeeks(s: State, job: Job, now: int, stranded: set<nat>)
    requires PeekInv(s, stranded, Some(job.id)) && JobShapes.Inv(s.db) && OnTurn(s, job) && Roster.Inv(s)
    requires job.kind == PeekExpire && job.status == Running
    ensures var (s', handled) := Handle(s, job, now); PeekInv(WriteHandled(s', job, handled, now), stranded, None)
  {
    var found := FindId(s.db.parts, job.payload.participationId);
    if found.Some? {
      var i := found.value;
      var part := s.db.parts[i];
      assert forall k :: 0 <= k < |s.db.parts| && s.db.parts[k].id == part.id ==> k == i;
      assert PeekOk(part, s, stranded, Some(job.id));
      if !Peeking(part) {
        TurnEndsPeeks(s, job, Complete, now, stranded);
      } else if !part.PeekExpired(now) {
        TurnEndsPeeks(s, job, Reschedule(part.expiresAt.value), now, stranded);
      } else {
        ExpiredTurnPeeks(s, job, i, now, stranded);
      }
    } else {
      TurnEndsPeeks(s, job, Complete, now, stranded);
    }
  }

  lemma ExpiredTurnPeeks(s: State, job: Job, i: nat, now: int, stranded: set<nat>)
    requires PeekInv(s, stranded, Some(job.id)) && JobShapes.Inv(s.db) && OnTurn(s, job) && Roster.Inv(s)
    requires job.kind == PeekExpire && job.status == Running && FindId(s.db.parts, job.payload.participationId) == Some(i)
    requires Peeking(s.db.parts[i]) && s.db.parts[i].PeekExpired(now)
    requires forall k :: 0 <= k < |s.db.parts| && s.db.parts[k].id == s.db.parts[i].id ==> k == i
    ensures var (s', handled) := Handle(s, job, now); PeekInv(WriteHandled(s', job, handled, now), stranded, None)
  {
    var part := s.db.parts[i];
    match GetEvent(s.db.events, part.eventId) {
      case None =>
        TurnEndsPeeks(s, job, Complete, now, stranded);
      case Some(ev) =>
        DetachKeepsPeeks(s, ev, i, Expired, now, stranded, Some(job.id));
        Roster.DetachKeepsInv(s, ev, i, Expired, now);
        assert Roster.EventOk(ev, s);
        var s1 := Detach(s, ev, part, Expired, now).0;
        Roster.RemoveMemberMoves(s, ev, part.userId);
        Roster.DetachRunsThrough(s, ev, part, Expired, now);
        assert s1.db.jobs == s.db.jobs;
        TurnEndsPeeks(s1, job, Complete, now, stranded);
    }
  }

  lemma JobKeepsPeeks(s: State, lease: int, now: int, created: set<nat>, stranded: set<nat>)
    requires PeekInv(s, stranded, None) && Lifecycle.Inv(s, created, None) && Roster.Inv(s)
    ensures PeekInv(RunJob(s, lease, now), stranded, None)
  {
    match ClaimJob(s, lease, now) {
      case (s1, None) =>
      case (s1, Some(job)) =>
        TurnStarts(s, lease, now, created);
        TurnStartsPeeks(s, lease, now, stranded);
        Roster.JobsKeepInv(s, s1.db.jobs);
        match job.kind {
          case PeekExpire => PeekTurnPeeks(s1, job, now, stranded);
          case AutoEnd => AutoEndTurnPeeks(s1, job, now, created, stranded);
          case Reminder => ReminderTurnPeeks(s1, job, now, created, stranded);
          case _ => ArchiveTurnPeeks(s1, job, now, created, stranded);
        }
    }
  }

  lemma ReminderTurnPeeks(s: State, job: Job, now: int, created: set<nat>, stranded: set<nat>)
    requires PeekInv(s, stranded, Some(job.id)) && Lifecycle.Inv(s, created, Some(job.id)) && OnTurn(s, job)
    requires JobShapes.Shaped(job) && job.kind == Reminder && job.status == Running && OpenIn(s.db.events, job.eventId)
    ensures var (s', handled) := Handle(s, job, now); PeekInv(WriteHandled(s', job, handled, now), stranded, None)
  {
    var s' := Handle(s, job, now).0;
    KeptKeepsInv(s, s', stranded, Some(job.id));
    JobShapes.SameJobsKeepInv(s.db, s'.db);
    TurnEndsPeeks(s', job, Complete, now, stranded);
  }

  lemma ArchiveTurnPeeks(s: State, job: Job, now: int, created: set<nat>, stranded: set<nat>)
    requires PeekInv(s, stranded, Some(job.id)) && Lifecycle.Inv(s, created, Some(job.id)) && OnTurn(s, job)
    requires JobShapes.Shaped(job) && job.kind == Archive && job.status == Running
    ensures var (s', handled) := Handle(s, job, now); PeekInv(WriteHandled(s', job, handled, now), stranded, None)
  {
    ArchiveKeepsPeeks(s, job.payload.eventId, now, stranded, Some(job.id));
    ArchiveKeepsInv(s, job.payload.eventId, now, created, Some(job.id));
    TurnEndsPeeks(Handle(s, job, now).0, job, Complete, now, stranded);
  }

  lemma AutoEndTurnPeeks(s: State, job: Job, now: int, created: set<nat>, stranded: set<nat>)
    requires PeekInv(s, stranded, Some(job.id)) && Lifecycle.Inv(s, created, Some(job.id)) && OnTurn(s, job)
    requires JobShapes.Shaped(job) && job.kind == AutoEnd && job.status == Running && OpenIn(s.db.events, job.eventId)
    ensures var (s', handled) := Handle(s, job, now); PeekInv(WriteHandled(s', job, handled, now), stranded, None)
  {
    var ev := GetEvent(s.db.events, job.eventId).value;
    var at := ev.AutoEndAt(s.workspaces[ev.workspaceId].autoEndGrace);
    if at > now {
      TurnEndsPeeks(s, job, Reschedule(at), now, stranded);
    } else {
      var actor := Actor("", true);
      CloseKeepsInv(s, ev.id, Auto, actor, now, created, Some(job.id));
      CloseKeepsTurn(s, ev.id, Auto, actor, now, job);
      CloseKeepsPeeks(s, ev.id, Auto, actor, now, stranded, Some(job.id));
      TurnEndsPeeks(Close(s, ev.id, Auto, actor, now).0, job, Complete, now, stranded);
    }
  }

  // ----- no peek is expired early, and what a promotion does to the others

  /** A handler that expires a record does so at or after the moment it was to expire,
      and only to an active peeker. */
  lemma NeverEarly(s: State, id: nat, now: int, k: nat)
    requires k < |s.db.parts| && |ExpirePeek(s, id, now).0.db.parts| == |s.db.parts|
    requires s.db.parts[k].status != Expired && ExpirePeek(s, id, now).0.db.parts[k].status == Expired
    requires Roster.Inv(s)
    ensures s.db.parts[k].id == id && Peeking(s.db.parts[k])
    ensures s.db.parts[k].expiresAt.Some? && s.db.parts[k].expiresAt.value <= now
  {
    var i := FindId(s.db.parts, id);
    if i.Some? {
      var part := s.db.parts[i.value];
      var found := GetEvent(s.db.events, part.eventId);
      if Peeking(part) && part.PeekExpired(now) && found.Some? {
        Roster.SameRecord(s.db.parts, s.db.nextId, s.chat.bot, i.value);
        Roster.RemoveMemberMoves(s, found.value, part.userId);
        Roster.DetachRunsThrough(s, found.value, part, Expired, now);
      }
    }
  }

  /** The promotion of one peeker cancels the expiry of all the others in the event: it
      leaves every one of them without a pending expiry job. */
  lemma PromotionStrandsOthers(s: State, eventId: nat, user: string, now: int, stranded: set<nat>, k: nat)
    requires PeekInv(s, stranded, None) && Roster.Inv(s) && user != s.chat.bot
    requires Apply(s, eventId, user, Join, now).1.Ok? && Apply(s, eventId, user, Join, now).1.value.change == Promoted
    requires k < |s.db.parts| && s.db.parts[k].eventId == eventId && s.db.parts[k].userId != user && Peeking(s.db.parts[k])
    ensures var s' := Apply(s, eventId, user, Join, now).0;
      && k < |s'.db.parts| && s'.db.parts[k] == s.db.parts[k]
      && !HasExpiry(s'.db.jobs, s'.db.parts[k], None)
  {
    var (ev, ws) := OpenEvent(s, eventId).value;
    var t := DecideTransition(At(s.db.parts, FindUser(s.db.parts, eventId, user)), Join);
    Roster.AddMemberMoves(s, ev, user);
    Roster.PressRunsThrough(s, ev, ws, user, Join, t, now);
    var s' := Apply(s, eventId, user, Join, now).0;
    assert s'.db.jobs == CancelByEvent(s.db.jobs, eventId, [PeekExpire], now);
    forall i | 0 <= i < |s'.db.jobs|
      ensures !Expires(s'.db.jobs[i], s'.db.parts[k], None)
    {
      assert Counted(s.db.jobs[i], s.db.parts[k]);
    }
  }
}
