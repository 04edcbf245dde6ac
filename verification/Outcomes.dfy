/** What a caller can rely on after one call: who is in and who is gone, what closing and
    archiving leave behind, when a reminder is sent, and exactly when calls are refused. */
module Outcomes {
  import opened Common
  import opened Jobs
  import opened Participations
  import opened Events
  import opened Manager
  import Roster

  function RecordOf(s: State, eventId: nat, user: string): Option<Participation> {
    At(s.db.parts, FindUser(s.db.parts, eventId, user))
  }

  /** Why an event lets nobody in or out, in this order. */
  function ClosedTo(s: State, eventId: nat): Option<Error> {
    match GetEvent(s.db.events, eventId)
    case None => Some(NotFound)
    case Some(ev) =>
      if ev.status != Open then Some(EventClosed)
      else if ev.workspaceId !in s.workspaces then Some(NotFound)
      else None
  }

  predicate Joins(part: Option<Participation>) {
    part.Some? && part.value.IsActive() && part.value.role == Participant
  }

  /** Nothing happened to anybody else, here or in other events. */
  ghost predicate OthersUntouched(s: State, s': State, eventId: nat, user: string) {
    && (forall e: nat, u :: (e != eventId || u != user) ==> RecordOf(s', e, u) == RecordOf(s, e, u))
    && (forall e: nat :: e != eventId ==> GetEvent(s'.db.events, e) == GetEvent(s.db.events, e))
  }

  /** The counter moved by this much, now if it moved, and no other field did. */
  ghost predicate Counted(s: State, s': State, eventId: nat, delta: int, now: int) {
    var a, b := GetEvent(s.db.events, eventId), GetEvent(s'.db.events, eventId);
    a.Some? && b.Some?
    && b.value == a.value.(participantCount := a.value.participantCount + delta,
                           updatedAt := if delta == 0 then a.value.updatedAt else now)
  }

  /** The channel of the event, if it has one, has or has not this member; other members stay. */
  ghost predicate Membership(s: State, s': State, eventId: nat, user: string, member: bool) {
    var ev := GetEvent(s.db.events, eventId);
    && ev.Some?
    && Roster.MemberMoved(s.chat, s'.chat, ev.value.channel.id, user, member)
  }

  lemma UpsertRecords(db: Db, entry: Entry, now: int, e: nat, u: string)
    ensures var (db', _, after) := UpsertPart(db, entry, now);
            At(db'.parts, FindUser(db'.parts, e, u)) ==
            if e == entry.eventId && u == entry.userId then Some(after) else At(db.parts, FindUser(db.parts, e, u))
  {
    match FindUser(db.parts, entry.eventId, entry.userId) {
      case None => FindUserAppend(db.parts, Created(entry, db.nextId, now), e, u);
      case Some(i) => FindUserSet(db.parts, i, Renewed(db.parts[i], entry, now), e, u);
    }
  }

  lemma RecordsAfterUpsert(s: State, s': State, entry: Entry, now: int)
    requires s'.db.parts == UpsertPart(s.db, entry, now).0.parts
    ensures RecordOf(s', entry.eventId, entry.userId) == Some(UpsertPart(s.db, entry, now).2)
    ensures forall e: nat, u :: (e != entry.eventId || u != entry.userId) ==> RecordOf(s', e, u) == RecordOf(s, e, u)
  {
    UpsertRecords(s.db, entry, now, entry.eventId, entry.userId);
    forall e: nat, u | e != entry.eventId || u != entry.userId
      ensures RecordOf(s', e, u) == RecordOf(s, e, u)
    {
      UpsertRecords(s.db, entry, now, e, u);
    }
  }

  lemma OneEventWritten(events: seq<Event>, eventId: nat, write: EventWrite)
    requires GetEvent(events, eventId).Some?
    ensures var events' := WriteEvent(events, eventId, write);
      && (forall e: nat :: e != eventId ==> GetEvent(events', e) == GetEvent(events, e))
      && GetEvent(events', eventId) == Some(WrittenEvent(GetEvent(events, eventId).value, write))
  {
    forall e: nat
      ensures GetEvent(WriteEvent(events, eventId, write), e) ==
              if e == eventId then Some(WrittenEvent(GetEvent(events, eventId).value, write)) else GetEvent(events, e)
    {
      GetAfterWrite(events, eventId, write, e);
    }
  }

  /** The user is in: as a participant if the button was join or nothing less was asked
      before, as a peeker for the configured time otherwise. The counter counts who became a
      participant, and the channel has the user as a member. */
  ghost predicate LetIn(s: State, s': State, eventId: nat, user: string, action: Action, expiresAt: int, now: int) {
    var before, after := RecordOf(s, eventId, user), RecordOf(s', eventId, user);
    && after.Some? && after.value.IsActive()
    && (Joins(after) <==> action == Join || Joins(before))
    && (action == Peek && (before.None? || !before.value.IsActive()) ==> after.value.expiresAt == Some(expiresAt))
    && OthersUntouched(s, s', eventId, user)
    && Counted(s, s', eventId, One(Joins(after)) - One(Joins(before)), now)
    && Membership(s, s', eventId, user, true)
  }

  /** The event is open, and a peek there lasts for the time its workspace has set. */
  ghost predicate LetInToOpen(s: State, s': State, eventId: nat, user: string, action: Action, now: int) {
    && OpenEvent(s, eventId).Ok?
    && LetIn(s, s', eventId, user, action, now + OpenEvent(s, eventId).value.1.peekDuration, now)
  }

  /** A press that succeeds lets the user in. */
  lemma PressLetsIn(s: State, s': State, eventId: nat, user: string, action: Action, t: Transition, now: int)
    requires Roster.Inv(s) && user != s.chat.bot && Apply(s, eventId, user, action, now) == (s', Ok(t))
    ensures LetInToOpen(s, s', eventId, user, action, now)
  {
    ApplyIsPress(s, s', eventId, user, action, t, now);
    var (ev, ws) := OpenEvent(s, eventId).value;
    PressOnOpenLetsIn(s, s', ev, ws, user, action, now);
  }

  lemma ApplyIsPress(s: State, s': State, eventId: nat, user: string, action: Action, t: Transition, now: int)
    requires Apply(s, eventId, user, action, now) == (s', Ok(t))
    ensures OpenEvent(s, eventId).Ok?
    ensures var (ev, ws) := OpenEvent(s, eventId).value;
      && GetEvent(s.db.events, eventId) == Some(ev) && ev.id == eventId
      && s' == AfterPress(s, ev, ws, user, action, now)
  {
  }

  /** The state after a press on an open event: as it was, if the button has no effect. */
  function AfterPress(s: State, ev: Event, ws: Settings, user: string, action: Action, now: int): State {
    var t := DecideTransition(RecordOf(s, ev.id, user), action);
    if t.addToChannel || t.cancelPeekJob then Press(s, ev, ws, user, action, t, now).0 else s
  }

  lemma PressOnOpenLetsIn(s: State, s': State, ev: Event, ws: Settings, user: string, action: Action, now: int)
    requires Roster.Inv(s) && user != s.chat.bot && GetEvent(s.db.events, ev.id) == Some(ev)
    requires s' == AfterPress(s, ev, ws, user, action, now)
    ensures LetIn(s, s', ev.id, user, action, now + ws.peekDuration, now)
  {
    var t := DecideTransition(RecordOf(s, ev.id, user), action);
    if t.addToChannel || t.cancelPeekJob {
      EffectfulPress(s, ev, ws, user, action, t, now);
    } else {
      IdlePress(s, ev, user, action, now + ws.peekDuration, now);
    }
  }

  lemma IdlePress(s: State, ev: Event, user: string, action: Action, expiresAt: int, now: int)
    requires Roster.Inv(s) && user != s.chat.bot && GetEvent(s.db.events, ev.id) == Some(ev)
    requires var t := DecideTransition(RecordOf(s, ev.id, user), action); !t.addToChannel && !t.cancelPeekJob
    ensures LetIn(s, s, ev.id, user, action, expiresAt, now)
  {
    Roster.AddMemberMoves(s, ev, user);
    assert Roster.IsActiveIn(s.db.parts, ev.id, user);
  }

  lemma EffectfulPress(s: State, ev: Event, ws: Settings, user: string, action: Action, t: Transition, now: int)
    requires Roster.Inv(s) && user != s.chat.bot && GetEvent(s.db.events, ev.id) == Some(ev)
    requires t == DecideTransition(RecordOf(s, ev.id, user), action) && (t.addToChannel || t.cancelPeekJob)
    ensures LetIn(s, Press(s, ev, ws, user, action, t, now).0, ev.id, user, action, now + ws.peekDuration, now)
  {
    Roster.AddMemberMoves(s, ev, user);
    Roster.PressRunsThrough(s, ev, ws, user, action, t, now);
    var (db, _, after) := UpsertPart(s.db, Roster.EntryOf(ev, ws, user, t, now), now);
    Roster.AfterTransitionFrame(db, ev, after, t, now);
    PressedRecords(s, Press(s, ev, ws, user, action, t, now).0, ev, ws, user, action, t, now);
  }

  lemma PressedRecords(s: State, s': State, ev: Event, ws: Settings, user: string, action: Action, t: Transition, now: int)
    requires GetEvent(s.db.events, ev.id) == Some(ev)
    requires t == DecideTransition(RecordOf(s, ev.id, user), action) && (t.addToChannel || t.cancelPeekJob)
    requires s'.db.parts == UpsertPart(s.db, Roster.EntryOf(ev, ws, user, t, now), now).0.parts
    requires s'.db.events == if t.role == Participant then WriteEvent(s.db.events, ev.id, CountBy(1, now)) else s.db.events
    ensures var after := RecordOf(s', ev.id, user);
      && after.Some? && after.value.IsActive() && after.value.role == t.role
      && (t.role == Peeker ==> after.value.expiresAt == Some(now + ws.peekDuration))
      && OthersUntouched(s, s', ev.id, user)
      && Counted(s, s', ev.id, if t.role == Participant then 1 else 0, now)
  {
    hide UpsertPart, DecideTransition, RecordOf, GetEvent, WriteEvent;
    PressedRecord(s, ev, ws, user, action, t, now);
    RecordsAfterUpsert(s, s', Roster.EntryOf(ev, ws, user, t, now), now);
    OneEventWritten(s.db.events, ev.id, CountBy(1, now));
  }

  lemma PressedRecord(s: State, ev: Event, ws: Settings, user: string, action: Action, t: Transition, now: int)
    requires t == DecideTransition(RecordOf(s, ev.id, user), action) && (t.addToChannel || t.cancelPeekJob)
    ensures var after := UpsertPart(s.db, Roster.EntryOf(ev, ws, user, t, now), now).2;
      && after.IsActive() && after.role == t.role
      && (t.role == Peeker ==> after.expiresAt == Some(now + ws.peekDuration))
  {
  }

  /** The record ends in the given state, the counter drops by one if it counted, and the
      user is no member any more. Nothing else of the record or the store changes. */
  ghost predicate Gone(s: State, s': State, eventId: nat, user: string, status: Standing, now: int) {
    var before, after := RecordOf(s, eventId, user), RecordOf(s', eventId, user);
    && before.Some? && after.Some?
    && after.value == before.value.(status := status, expiresAt := None, updatedAt := now)
    && s'.db.jobs == s.db.jobs && s'.db.logs == s.db.logs && s'.workspaces == s.workspaces
    && OthersUntouched(s, s', eventId, user)
    && Counted(s, s', eventId, if Joins(before) then -1 else 0, now)
    && Membership(s, s', eventId, user, false)
  }

  lemma DetachedIsGone(s: State, ev: Event, i: nat, status: Standing, now: int)
    requires Roster.Inv(s) && i < |s.db.parts| && s.db.parts[i].IsActive() && status != Active
    requires GetEvent(s.db.events, ev.id) == Some(ev) && s.db.parts[i].eventId == ev.id
    ensures Detach(s, ev, s.db.parts[i], status, now).1.Ok?
    ensures Gone(s, Detach(s, ev, s.db.parts[i], status, now).0, ev.id, s.db.parts[i].userId, status, now)
  {
    var part := s.db.parts[i];
    Roster.SameRecord(s.db.parts, s.db.nextId, s.chat.bot, i);
    Roster.RemoveMemberMoves(s, ev, part.userId);
    Roster.DetachRunsThrough(s, ev, part, status, now);
    RecordEnds(s, Detach(s, ev, part, status, now).0, ev, i, status, now);
  }

  lemma RecordEnds(s: State, s': State, ev: Event, i: nat, status: Standing, now: int)
    requires i < |s.db.parts| && s.db.parts[i].IsActive() && status != Active
    requires GetEvent(s.db.events, ev.id) == Some(ev) && s.db.parts[i].eventId == ev.id
    requires FindUser(s.db.parts, ev.id, s.db.parts[i].userId) == Some(i)
    requires s'.db.parts == s.db.parts[i := WithStatus(s.db.parts[i], status, now)]
    requires s'.db.events ==
             if s.db.parts[i].role == Participant then WriteEvent(s.db.events, ev.id, CountBy(-1, now)) else s.db.events
    ensures var user := s.db.parts[i].userId; var before, after := RecordOf(s, ev.id, user), RecordOf(s', ev.id, user);
      && before == Some(s.db.parts[i]) && after == Some(WithStatus(s.db.parts[i], status, now))
      && OthersUntouched(s, s', ev.id, user)
      && Counted(s, s', ev.id, if Joins(before) then -1 else 0, now)
  {
    forall e, u
      ensures FindUser(s'.db.parts, e, u) == FindUser(s.db.parts, e, u)
    {
      FindUserSet(s.db.parts, i, WithStatus(s.db.parts[i], status, now), e, u);
    }
    OneEventWritten(s.db.events, ev.id, CountBy(-1, now));
  }

  /** Leaving succeeds exactly for an active member of an open event who is not its
      organizer, and then the user is gone. */
  lemma LeavingMakesGone(s: State, eventId: nat, user: string, now: int)
    requires Roster.Inv(s)
    ensures var record := RecordOf(s, eventId, user); var (s', r) := Leave(s, eventId, user, now);
      && (r.Ok? <==> OpenEvent(s, eventId).Ok? && user != OpenEvent(s, eventId).value.0.organizer
                     && record.Some? && record.value.IsActive())
      && (r.Ok? ==> Gone(s, s', eventId, user, Left, now))
      && (r.Err? ==> s' == s)
      && r == match ClosedTo(s, eventId)
              case Some(e) => Err(e)
              case None =>
                if user == GetEvent(s.db.events, eventId).value.organizer then Err(OrganizerCannotLeave)
                else if record.None? || record.value.status != Active then Err(NotFound)
                else Ok(())
  {
    var i := FindUser(s.db.parts, eventId, user);
    if OpenEvent(s, eventId).Ok? && i.Some? && s.db.parts[i.value].IsActive() {
      DetachedIsGone(s, OpenEvent(s, eventId).value.0, i.value, Left, now);
    }
  }

  /** Removing succeeds for any record of an open event; an active one is gone afterwards,
      and one that is not is left alone. */
  lemma RemovingMakesGone(s: State, eventId: nat, user: string, online: bool, now: int)
    requires Roster.Inv(s)
    ensures var record := RecordOf(s, eventId, user); var (s', r) := Remove(s, eventId, user, online, now);
      && (r.Ok? <==> online && OpenEvent(s, eventId).Ok? && record.Some?)
      && (r.Ok? && record.value.IsActive() ==> Gone(s, s', eventId, user, Removed, now))
      && (r.Err? || !record.value.IsActive() ==> s' == s)
      && r == if !online then Err(ProviderUnavailable)
              else
                match ClosedTo(s, eventId)
                case Some(e) => Err(e)
                case None => if record.None? then Err(NotFound) else Ok(())
  {
    var i := FindUser(s.db.parts, eventId, user);
    if OpenEvent(s, eventId).Ok? && i.Some? && s.db.parts[i.value].IsActive() {
      DetachedIsGone(s, OpenEvent(s, eventId).value.0, i.value, Removed, now);
    }
  }

  /** A peek expires exactly when its record is an active peeker whose time has come, in an
      event that still exists; then the user is gone, otherwise nothing happens. */
  lemma ExpiringMakesGone(s: State, id: nat, now: int)
    requires Roster.Inv(s)
    ensures var i := FindId(s.db.parts, id); var (s', r) := ExpirePeek(s, id, now);
      var due := i.Some? && s.db.parts[i.value].IsActive() && s.db.parts[i.value].PeekExpired(now)
                 && GetEvent(s.db.events, s.db.parts[i.value].eventId).Some?;
      && (due <==> r.Ok? && r.value.1)
      && (due ==> Gone(s, s', s.db.parts[i.value].eventId, s.db.parts[i.value].userId, Expired, now))
      && (!due ==> s' == s)
      && r == if i.None? then Ok((None, false))
              else
                var part := s.db.parts[i.value];
                if part.status != Active || part.role != Peeker || part.expiresAt == None || now < part.expiresAt.value
                then Ok((Some(part), false))
                else if due then Ok((Some(part.(status := Expired)), true))
                else Err(NotFound)
  {
    var i := FindId(s.db.parts, id);
    if i.Some? && s.db.parts[i.value].IsActive() && s.db.parts[i.value].PeekExpired(now) {
      var ev := GetEvent(s.db.events, s.db.parts[i.value].eventId);
      if ev.Some? {
        assert Roster.EventOk(ev.value, s);
        DetachedIsGone(s, ev.value, i.value, Expired, now);
      }
    }
  }

  // ----- closing, archiving, sending

  /** A new job of the event: it waits for its first of five tries. */
  predicate Waits(job: Job, kind: Kind, eventId: nat, runAt: int) {
    && job.kind == kind && job.eventId == eventId == job.payload.eventId && job.runAt == runAt
    && job.status == Pending && job.attempts == 0 && job.maxAttempts == 5
    && job.leaseUntil == None && job.finishedAt == None && job.lastError == ""
  }

  /** What was pending for the event is canceled, and its channel has an archive job, due at
      once if it is new. All other jobs stay. */
  ghost predicate JobsClosed(jobs: seq<Job>, jobs': seq<Job>, ev: Event, now: int) {
    && |jobs| <= |jobs'|
    && (forall k :: 0 <= k < |jobs| ==>
          jobs'[k] == if jobs[k].eventId == ev.id && jobs[k].status == Pending && jobs[k].kind in {Reminder, AutoEnd, PeekExpire}
                      then jobs[k].(status := Canceled, finishedAt := Some(now), updatedAt := now)
                      else jobs[k])
    && if ev.channel.id.None? || HasKey(jobs, ArchiveKey(ev.id)) then |jobs'| == |jobs|
       else
         && |jobs'| == |jobs| + 1
         && Waits(jobs'[|jobs|], Archive, ev.id, now) && jobs'[|jobs|].key == ArchiveKey(ev.id)
  }

  /** Closing succeeds exactly for an existing event and somebody who may manage it. An open
      event is then ended, or canceled if that was the reason; no reminder, auto-end or peek
      expiry of it is pending, and its channel has an archive job. Nobody else is affected. */
  lemma ClosingEnds(s: State, eventId: nat, reason: EndReason, actor: Actor, now: int)
    requires Roster.Inv(s)
    ensures var found := GetEvent(s.db.events, eventId); var (s', r) := Close(s, eventId, reason, actor, now);
      && r == (if found.None? then Err(NotFound)
               else if actor.console || actor.userId == found.value.organizer then Ok(())
               else Err(Forbidden))
      && (r.Err? || !found.value.IsOpen() ==> s' == s)
      && (r.Ok? && found.value.IsOpen() ==> ClosedBy(s, s', found.value, reason, now))
  {
    var found := GetEvent(s.db.events, eventId);
    if found.Some? && found.value.IsOpen() && MayManage(found.value, actor) {
      assert Roster.EventOk(found.value, s);
      ClosesOpenBy(s, found.value, reason, actor, now);
    }
  }

  lemma ClosesOpenBy(s: State, ev: Event, reason: EndReason, actor: Actor, now: int)
    requires GetEvent(s.db.events, ev.id) == Some(ev) && ev.IsOpen() && ev.workspaceId in s.workspaces && MayManage(ev, actor)
    ensures Close(s, ev.id, reason, actor, now).1.Ok? && ClosedBy(s, Close(s, ev.id, reason, actor, now).0, ev, reason, now)
  {
    var write := Overwrite(Closed(ev, CloseStatus(reason), reason, now));
    OneEventWritten(s.db.events, ev.id, write);
    JobsOfClosed(PutEvent(s.db, ev.id, write), ev, now);
  }

  ghost predicate ClosedBy(s: State, s': State, ev: Event, reason: EndReason, now: int) {
    && GetEvent(s'.db.events, ev.id) ==
       Some(ev.(status := if reason == CanceledByHand then CanceledEvent else Ended,
                endReason := Some(reason), endedAt := Some(now), updatedAt := now))
    && (forall e: nat :: e != ev.id ==> GetEvent(s'.db.events, e) == GetEvent(s.db.events, e))
    && s'.db.parts == s.db.parts && s'.db.logs == s.db.logs && s'.chat == s.chat
    && JobsClosed(s.db.jobs, s'.db.jobs, ev, now)
  }

  lemma JobsOfClosed(db: Db, ev: Event, now: int)
    ensures var canceled := CancelJobs(db, ev.id, CLOSING_KINDS, now);
            var jobs := (if ev.channel.id.None? then canceled else EnqueueJob(canceled, NewArchiveJob(ev.id, now), now)).jobs;
            JobsClosed(db.jobs, jobs, ev, now)
  {
    var canceled := CancelJobs(db, ev.id, CLOSING_KINDS, now);
    assert forall k :: 0 <= k < |db.jobs| ==> canceled.jobs[k].key == db.jobs[k].key;
    if HasKey(db.jobs, ArchiveKey(ev.id)) {
      var k :| 0 <= k < |db.jobs| && db.jobs[k].key == ArchiveKey(ev.id);
      assert canceled.jobs[k].key == ArchiveKey(ev.id);
    }
  }

  /** After archiving, the event says so and the provider's channel is archived, with the same
      name and members; everything else stays, and archiving again changes nothing. */
  lemma ArchivingArchives(s: State, eventId: nat, now: int, later: int)
    requires Roster.Inv(s) && GetEvent(s.db.events, eventId).Some?
    ensures var ev := GetEvent(s.db.events, eventId).value; var (s', r) := ArchiveChannel(s, eventId, now);
      && r.Ok? && ArchiveChannel(s', eventId, later).0 == s'
      && s'.db.jobs == s.db.jobs && s'.db.parts == s.db.parts && s'.db.logs == s.db.logs
      && (forall e: nat :: e != eventId ==> GetEvent(s'.db.events, e) == GetEvent(s.db.events, e))
      && GetEvent(s'.db.events, eventId).Some?
      && if ev.channel.id.None? || ev.channel.archived then s' == s
         else
           var c := ev.channel.id.value;
           && GetEvent(s'.db.events, eventId).value == ev.(channel := ev.channel.(archived := true), updatedAt := now)
           && c in s.chat.channels
           && s'.chat == s.chat.(channels := s.chat.channels[c := s.chat.channels[c].(archived := true)])
  {
    var ev := GetEvent(s.db.events, eventId).value;
    assert Roster.EventOk(ev, s);
    OneEventWritten(s.db.events, eventId, SetChannel(ev.channel.(archived := true), now));
  }

  /** A channel that was deleted at the provider counts as archived. */
  lemma LostChannelArchives(s: State, ev: Event, now: int)
    requires GetEvent(s.db.events, ev.id) == Some(ev) && ev.workspaceId in s.workspaces
    requires ev.channel.id.Some? && !ev.channel.archived && ev.channel.id.value !in s.chat.channels
    ensures var (s', r) := ArchiveChannel(s, ev.id, now);
      && r == Ok(()) && s'.chat == s.chat && s'.workspaces == s.workspaces
      && s'.db.jobs == s.db.jobs && s'.db.parts == s.db.parts && s'.db.logs == s.db.logs
      && GetEvent(s'.db.events, ev.id) == Some(ev.(channel := ChannelRef(ev.channel.id, ev.channel.name, true), updatedAt := now))
      && (forall e: nat :: e != ev.id ==> GetEvent(s'.db.events, e) == GetEvent(s.db.events, e))
  {
    OneEventWritten(s.db.events, ev.id, SetChannel(ev.channel.(archived := true), now));
  }

  /** The entry of a reminder: an instant that is not given is now. */
  predicate LogsThis(log: ReminderLog, eventId: nat, sequence: int, scheduledFor: int, now: int) {
    && log.eventId == eventId && log.sequence == sequence && log.sentAt == now
    && log.scheduledFor == if scheduledFor == ZERO_TIME then now else scheduledFor
  }

  /** A channel that was deleted at the provider closes its event, for who comes and for who
      goes, and they are told that it is not there. */
  lemma LostChannelCloses(s: State, ev: Event, user: string, now: int)
    requires GetEvent(s.db.events, ev.id) == Some(ev) && ev.status == Open && ev.workspaceId in s.workspaces
    requires ev.channel.id.Some? && ev.channel.id.value !in s.chat.channels
    ensures JoinChannel(s, ev, user, now).1 == Err(NotFound) == LeaveChannel(s, ev, user, now).1
    ensures ClosedBy(s, JoinChannel(s, ev, user, now).0, ev, ChannelLost, now)
    ensures LeaveChannel(s, ev, user, now).0 == JoinChannel(s, ev, user, now).0
  {
    ClosesOpenBy(s, ev, ChannelLost, Actor("", true), now);
  }

  /** A reminder is sent exactly for an open event that has not started and has not logged
      the number; then one entry is logged, otherwise nothing. */
  lemma SendingLogs(s: State, eventId: nat, sequence: int, scheduledFor: int, now: int)
    requires Roster.Inv(s) && GetEvent(s.db.events, eventId).Some?
    ensures var ev := GetEvent(s.db.events, eventId).value; var (s', r) := Send(s, eventId, sequence, scheduledFor, now);
      var due := ev.IsOpen() && now < ev.startsAt && !SentSequence(s.db.logs, eventId, sequence);
      && r == Ok(due)
      && (!due ==> s' == s)
      && (due ==> |s'.db.logs| == |s.db.logs| + 1 && s.db.logs <= s'.db.logs && SentSequence(s'.db.logs, eventId, sequence)
                  && LogsThis(s'.db.logs[|s.db.logs|], eventId, sequence, scheduledFor, now)
                  && s' == s.(db := s.db.(logs := s'.db.logs, nextId := s'.db.nextId))
                  && !Send(s', eventId, sequence, scheduledFor, now).1.value)
  {
    assert Roster.EventOk(GetEvent(s.db.events, eventId).value, s);
    var s' := Send(s, eventId, sequence, scheduledFor, now).0;
    if |s'.db.logs| > |s.db.logs| {
      assert s'.db.logs[|s.db.logs|].sequence == sequence && s'.db.logs[|s.db.logs|].eventId == eventId;
    }
  }
}
