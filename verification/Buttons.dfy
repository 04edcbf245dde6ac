/** What a press of a button answers and leaves behind (Apply in usecase/participation.go),
    for every user and every record they may have. */
module Buttons {
  import opened Common
  import opened Jobs
  import opened Participations
  import opened Events
  import opened Manager
  import JobShapes
  import Outcomes
  import Peeks
  import Roster

  predicate Present(part: Option<Participation>) {
    part.Some? && part.value.status == Active
  }

  /** Who is not present enters by the button; a participant stays one; a peeker is promoted
      by join and goes on peeking otherwise. */
  function Reported(before: Option<Participation>, action: Action): Change {
    if !Present(before) then (if action == Join then Joined else Peeked)
    else if before.value.role == Participant then AlreadyParticipant
    else if action == Join then Promoted
    else AlreadyPeeking
  }

  ghost predicate Answers(t: Transition, before: Option<Participation>, action: Action) {
    && t.change == Reported(before, action)
    && (t.role == Participant <==> t.change in {Joined, Promoted, AlreadyParticipant})
    && (t.addToChannel <==> t.change in {Joined, Peeked})
    && (t.cancelPeekJob <==> t.change == Promoted)
  }

  /** The record of a press that changed something: the old one renewed, or a new one. */
  ghost predicate Recorded(before: Option<Participation>, after: Participation, change: Change, expiresAt: int, now: int) {
    && after.status == Active && after.updatedAt == now
    && after.role == (if change == Peeked then Peeker else Participant)
    && after.expiresAt == (if change == Peeked then Some(expiresAt) else None)
    && match before
       case None => after.joinedAt == now && after.peekCount == if change == Peeked then 1 else 0
       case Some(part) =>
         && after.id == part.id && after.joinedAt == part.joinedAt
         && after.peekCount == part.peekCount + if change == Peeked then 1 else 0
  }

  /** A join leaves the jobs alone, a promotion cancels the expiry jobs that wait in the event,
      a peek adds one that is due when it expires, unless its key is there already. */
  ghost predicate JobsAfter(jobs: seq<Job>, jobs': seq<Job>, change: Change, after: Participation, now: int) {
    match change
    case Promoted =>
      && |jobs'| == |jobs|
      && forall k :: 0 <= k < |jobs| ==>
           if jobs[k].kind == PeekExpire && jobs[k].eventId == after.eventId && jobs[k].status == Pending
           then jobs'[k] == jobs[k].(status := Canceled, finishedAt := Some(now), updatedAt := now)
           else jobs'[k] == jobs[k]
    case Peeked =>
      && after.expiresAt.Some?
      && if HasKey(jobs, PeekKey(after.id, after.peekCount)) then jobs' == jobs
         else |jobs'| == |jobs| + 1 && jobs <= jobs' && IsExpiryOf(jobs'[|jobs|], after)
    case _ => jobs' == jobs
  }

  ghost predicate IsExpiryOf(job: Job, part: Participation) {
    && Outcomes.Waits(job, PeekExpire, part.eventId, job.runAt)
    && job.payload.participationId == part.id && part.expiresAt == Some(job.runAt)
  }

  ghost predicate Effected(s: State, s': State, eventId: nat, user: string, action: Action, change: Change, now: int) {
    var before, after := Outcomes.RecordOf(s, eventId, user), Outcomes.RecordOf(s', eventId, user);
    && Outcomes.LetInToOpen(s, s', eventId, user, action, now)
    && after.Some? && after.value.eventId == eventId && after.value.userId == user
    && Recorded(before, after.value, change, now + OpenEvent(s, eventId).value.1.peekDuration, now)
    && JobsAfter(s.db.jobs, s'.db.jobs, change, after.value, now)
    && s'.db.logs == s.db.logs && s'.workspaces == s.workspaces
  }

  /** A press succeeds exactly on an open event of a known workspace. What it reports is
      decided by the record before; a press that finds everything settled changes nothing. */
  lemma PressOutcome(s: State, s': State, r: Result<Transition, Error>, eventId: nat, user: string, action: Action, now: int)
    requires Roster.Inv(s) && user != s.chat.bot && Apply(s, eventId, user, action, now) == (s', r)
    ensures match Outcomes.ClosedTo(s, eventId)
            case Some(e) => r == Err(e) && s' == s
            case None =>
              var before := Outcomes.RecordOf(s, eventId, user);
              && r.Ok? && Answers(r.value, before, action)
              && if Reported(before, action) in {AlreadyParticipant, AlreadyPeeking} then s' == s
                 else Effected(s, s', eventId, user, action, r.value.change, now)
  {
    if Outcomes.ClosedTo(s, eventId).None? {
      var ev := GetEvent(s.db.events, eventId).value;
      OpenPress(s, s', r, ev, s.workspaces[ev.workspaceId], user, action, now);
    }
  }

  lemma OpenPress(s: State, s': State, r: Result<Transition, Error>, ev: Event, ws: Settings, user: string, action: Action, now: int)
    requires Roster.Inv(s) && user != s.chat.bot && Apply(s, ev.id, user, action, now) == (s', r)
    requires OpenEvent(s, ev.id) == Ok((ev, ws))
    ensures var before := Outcomes.RecordOf(s, ev.id, user);
      && r.Ok? && Answers(r.value, before, action)
      && if Reported(before, action) in {AlreadyParticipant, AlreadyPeeking} then s' == s
         else Effected(s, s', ev.id, user, action, r.value.change, now)
  {
    var t := DecideTransition(Outcomes.RecordOf(s, ev.id, user), action);
    if t.addToChannel || t.cancelPeekJob {
      PressedState(s, s', r, ev, ws, user, action, t, now);
      EffectfulOutcome(s, s', ev, ws, user, action, t, now);
    }
  }

  /** What a press with effects does to the state. */
  ghost predicate Pressed(s: State, s': State, ev: Event, ws: Settings, user: string, t: Transition, now: int) {
    && s'.workspaces == s.workspaces
    && Outcomes.Membership(s, s', ev.id, user, true)
    && var (db, _, after) := UpsertPart(s.db, Roster.EntryOf(ev, ws, user, t, now), now);
       s'.db == AfterTransition(db, ev, after, t, now)
  }

  lemma PressedState(s: State, s': State, r: Result<Transition, Error>, ev: Event, ws: Settings, user: string, action: Action,
                     t: Transition, now: int)
    requires Roster.Inv(s) && user != s.chat.bot && OpenEvent(s, ev.id) == Ok((ev, ws))
    requires t == DecideTransition(Outcomes.RecordOf(s, ev.id, user), action) && (t.addToChannel || t.cancelPeekJob)
    requires Apply(s, ev.id, user, action, now) == (s', r)
    ensures r == Ok(t) && Pressed(s, s', ev, ws, user, t, now)
  {
    Roster.AddMemberMoves(s, ev, user);
    Roster.PressRunsThrough(s, ev, ws, user, action, t, now);
  }

  lemma EffectfulOutcome(s: State, s': State, ev: Event, ws: Settings, user: string, action: Action, t: Transition, now: int)
    requires OpenEvent(s, ev.id) == Ok((ev, ws)) && Pressed(s, s', ev, ws, user, t, now)
    requires t == DecideTransition(Outcomes.RecordOf(s, ev.id, user), action) && (t.addToChannel || t.cancelPeekJob)
    ensures Effected(s, s', ev.id, user, action, t.change, now)
  {
    PressedLetsIn(s, s', ev, ws, user, action, t, now);
    PressWrites(s, s', ev, ws, user, action, t, now);
  }

  lemma PressedLetsIn(s: State, s': State, ev: Event, ws: Settings, user: string, action: Action, t: Transition, now: int)
    requires OpenEvent(s, ev.id) == Ok((ev, ws)) && Pressed(s, s', ev, ws, user, t, now)
    requires t == DecideTransition(Outcomes.RecordOf(s, ev.id, user), action) && (t.addToChannel || t.cancelPeekJob)
    ensures Outcomes.LetInToOpen(s, s', ev.id, user, action, now)
  {
    PressedStore(s, s', ev, ws, user, t, now);
    Outcomes.PressedRecords(s, s', ev, ws, user, action, t, now);
    RecordsLetIn(s, s', ev, ws, user, action, t, now);
  }

  lemma PressedStore(s: State, s': State, ev: Event, ws: Settings, user: string, t: Transition, now: int)
    requires Pressed(s, s', ev, ws, user, t, now)
    ensures s'.db.parts == UpsertPart(s.db, Roster.EntryOf(ev, ws, user, t, now), now).0.parts
    ensures s'.db.events == if t.role == Participant then WriteEvent(s.db.events, ev.id, CountBy(1, now)) else s.db.events
  {
    var (db, _, after) := UpsertPart(s.db, Roster.EntryOf(ev, ws, user, t, now), now);
    Roster.AfterTransitionFrame(db, ev, after, t, now);
  }

  lemma RecordsLetIn(s: State, s': State, ev: Event, ws: Settings, user: string, action: Action, t: Transition, now: int)
    requires OpenEvent(s, ev.id) == Ok((ev, ws)) && Outcomes.Membership(s, s', ev.id, user, true)
    requires t == DecideTransition(Outcomes.RecordOf(s, ev.id, user), action) && (t.addToChannel || t.cancelPeekJob)
    requires var after := Outcomes.RecordOf(s', ev.id, user);
      && after.Some? && after.value.IsActive() && after.value.role == t.role
      && (t.role == Peeker ==> after.value.expiresAt == Some(now + ws.peekDuration))
    requires Outcomes.OthersUntouched(s, s', ev.id, user)
    requires Outcomes.Counted(s, s', ev.id, if t.role == Participant then 1 else 0, now)
    ensures Outcomes.LetInToOpen(s, s', ev.id, user, action, now)
  {
  }

  lemma PressWrites(s: State, s': State, ev: Event, ws: Settings, user: string, action: Action, t: Transition, now: int)
    requires Pressed(s, s', ev, ws, user, t, now)
    requires t == DecideTransition(Outcomes.RecordOf(s, ev.id, user), action) && (t.addToChannel || t.cancelPeekJob)
    ensures var before, after := Outcomes.RecordOf(s, ev.id, user), Outcomes.RecordOf(s', ev.id, user);
      && after.Some? && after.value.eventId == ev.id && after.value.userId == user
      && Recorded(before, after.value, t.change, now + ws.peekDuration, now)
      && JobsAfter(s.db.jobs, s'.db.jobs, t.change, after.value, now)
      && s'.db.logs == s.db.logs
  {
    var (db, _, after) := UpsertPart(s.db, Roster.EntryOf(ev, ws, user, t, now), now);
    RecordWritten(s, s', ev, ws, user, t, now);
    Roster.AfterTransitionFrame(db, ev, after, t, now);
    RecordIs(s, ev, ws, user, action, t, now);
    JobsAre(db, s'.db, ev, after, t, now);
  }

  lemma RecordWritten(s: State, s': State, ev: Event, ws: Settings, user: string, t: Transition, now: int)
    requires Pressed(s, s', ev, ws, user, t, now)
    ensures Outcomes.RecordOf(s', ev.id, user) == Some(UpsertPart(s.db, Roster.EntryOf(ev, ws, user, t, now), now).2)
  {
    var entry := Roster.EntryOf(ev, ws, user, t, now);
    var (db, _, after) := UpsertPart(s.db, entry, now);
    Roster.AfterTransitionFrame(db, ev, after, t, now);
    Outcomes.UpsertRecords(s.db, entry, now, ev.id, user);
  }

  lemma RecordIs(s: State, ev: Event, ws: Settings, user: string, action: Action, t: Transition, now: int)
    requires t == DecideTransition(Outcomes.RecordOf(s, ev.id, user), action) && (t.addToChannel || t.cancelPeekJob)
    ensures var after := UpsertPart(s.db, Roster.EntryOf(ev, ws, user, t, now), now).2;
      && after.eventId == ev.id && after.userId == user
      && Recorded(Outcomes.RecordOf(s, ev.id, user), after, t.change, now + ws.peekDuration, now)
      && (t.role == Peeker <==> t.change == Peeked) && t.change in {Joined, Peeked, Promoted}
      && (t.cancelPeekJob <==> t.change == Promoted)
  {
  }

  lemma JobsAre(db: Db, db': Db, ev: Event, after: Participation, t: Transition, now: int)
    requires db' == AfterTransition(db, ev, after, t, now) && after.eventId == ev.id
    requires (t.role == Peeker <==> t.change == Peeked) && t.change in {Joined, Peeked, Promoted}
    requires t.cancelPeekJob <==> t.change == Promoted
    requires t.change == Peeked ==> after.expiresAt.Some?
    ensures JobsAfter(db.jobs, db'.jobs, t.change, after, now)
  {
  }

  /** A user who is let in to peek has a job waiting that is due at exactly the moment the
      peek expires. */
  lemma PeekIsDue(s: State, s': State, r: Result<Transition, Error>, eventId: nat, user: string, now: int, stranded: set<nat>)
    requires Roster.Inv(s) && JobShapes.Inv(s.db) && Peeks.PeekInv(s, stranded, None) && user != s.chat.bot
    requires Apply(s, eventId, user, Peek, now) == (s', r) && r.Ok? && !Present(Outcomes.RecordOf(s, eventId, user))
    ensures ExpiryWaits(s, s', eventId, user, now)
  {
    PressOutcome(s, s', r, eventId, user, Peek, now);
    var (ev, ws) := OpenEvent(s, eventId).value;
    var entry := Entry(eventId, ev.workspaceId, user, Peeker, Some(now + ws.peekDuration));
    Peeks.PeekIsEnqueued(s, entry, now, stranded);
    PeekKeyIs(s, s', r, ev, ws, user, now);
    var part := Outcomes.RecordOf(s', eventId, user).value;
    assert IsExpiryOf(s'.db.jobs[|s.db.jobs|], part);
  }

  ghost predicate ExpiryWaits(s: State, s': State, eventId: nat, user: string, now: int) {
    var part := Outcomes.RecordOf(s', eventId, user);
    && OpenEvent(s, eventId).Ok? && part.Some?
    && part.value.expiresAt == Some(now + OpenEvent(s, eventId).value.1.peekDuration)
    && exists k :: 0 <= k < |s'.db.jobs| && IsExpiryOf(s'.db.jobs[k], part.value)
  }

  lemma PeekKeyIs(s: State, s': State, r: Result<Transition, Error>, ev: Event, ws: Settings, user: string, now: int)
    requires Roster.Inv(s) && user != s.chat.bot && OpenEvent(s, ev.id) == Ok((ev, ws))
    requires Apply(s, ev.id, user, Peek, now) == (s', r) && !Present(Outcomes.RecordOf(s, ev.id, user))
    ensures var entry := Entry(ev.id, ev.workspaceId, user, Peeker, Some(now + ws.peekDuration));
            Outcomes.RecordOf(s', ev.id, user) == Some(UpsertPart(s.db, entry, now).2)
  {
    var t := DecideTransition(Outcomes.RecordOf(s, ev.id, user), Peek);
    PressedState(s, s', r, ev, ws, user, Peek, t, now);
    RecordWritten(s, s', ev, ws, user, t, now);
  }

  /** A press that was decided on an older record, and finds the matter settled otherwise when
      it is stored, answers what it finds: it touches the record, and has no further effect. */
  lemma LatePress(s: State, s': State, r: Result<Transition, Error>, ev: Event, ws: Settings, user: string, action: Action,
                  t: Transition, now: int)
    requires Press(s, ev, ws, user, action, t, now) == (s', r)
    requires t.change != Reported(Outcomes.RecordOf(s, ev.id, user), action)
    ensures var before, after := Outcomes.RecordOf(s, ev.id, user), Outcomes.RecordOf(s', ev.id, user);
      && r.Ok? && Answers(r.value, before, action)
      && after.Some? && after.value.status == Active
      && (Outcomes.Joins(before) ==> after == Some(before.value.(updatedAt := now)))
      && (!Outcomes.Joins(before) ==> after.value.role == t.role)
      && s'.db.events == s.db.events && s'.db.jobs == s.db.jobs && s'.db.logs == s.db.logs
      && s'.chat == s.chat && s'.workspaces == s.workspaces
    ensures forall e: nat, u :: (e != ev.id || u != user) ==> Outcomes.RecordOf(s', e, u) == Outcomes.RecordOf(s, e, u)
  {
    Outcomes.RecordsAfterUpsert(s, s', Roster.EntryOf(ev, ws, user, t, now), now);
  }
}
