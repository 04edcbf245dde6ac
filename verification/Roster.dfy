/** The denormalised participant counter and the external channel member list agree with
    the participation records after every use case. */
module Roster {
  import opened Common
  import opened Jobs
  import opened Sorting
  import opened Participations
  import opened Events
  import opened Manager

  // ----- the invariant

  ghost predicate PartsOk(parts: seq<Participation>, nextId: nat, bot: string) {
    && (forall i :: 0 <= i < |parts| ==>
          parts[i].id < nextId && parts[i].eventId < nextId && parts[i].userId != bot)
    && (forall i, j :: 0 <= i < j < |parts| ==>
          && parts[i].id != parts[j].id
          && !(parts[i].eventId == parts[j].eventId && parts[i].userId == parts[j].userId))
  }

  ghost predicate IsActiveIn(parts: seq<Participation>, eventId: nat, user: string) {
    var i := FindUser(parts, eventId, user);
    i.Some? && parts[i.value].IsActive()
  }

  /** The members are the bot and the users with an active participation, each once. */
  ghost predicate MembersOk(members: seq<string>, bot: string, parts: seq<Participation>, eventId: nat) {
    && Distinct(members)
    && (forall u :: u in members <==> u == bot || IsActiveIn(parts, eventId, u))
  }

  ghost predicate EventOk(ev: Event, s: State) {
    && ev.id < s.db.nextId
    && ev.workspaceId in s.workspaces
    && ev.participantCount == CountActive(s.db.parts, ev.id, Participant)
    && (ev.channel.id.Some? ==>
          && ev.channel.id.value in s.chat.channels
          && MembersOk(s.chat.channels[ev.channel.id.value].members, s.chat.bot, s.db.parts, ev.id))
  }

  ghost predicate OwnChannels(events: seq<Event>) {
    forall a, b :: a != b ==> Separate(GetEvent(events, a), GetEvent(events, b))
  }

  ghost predicate Separate(a: Option<Event>, b: Option<Event>) {
    a.Some? && b.Some? && a.value.channel.id.Some? ==> a.value.channel.id != b.value.channel.id
  }

  ghost predicate Inv(s: State) {
    && PartsOk(s.db.parts, s.db.nextId, s.chat.bot)
    && (forall id :: GetEvent(s.db.events, id).Some? ==> EventOk(GetEvent(s.db.events, id).value, s))
    && OwnChannels(s.db.events)
    && (forall c :: c in s.chat.channels ==> c <= s.chat.lastChannel)
  }

  // ----- steps that leave the roster alone

  ghost predicate SameEvent(a: Option<Event>, b: Option<Event>) {
    && a.Some? == b.Some?
    && (a.Some? ==>
          && a.value.id == b.value.id
          && a.value.workspaceId == b.value.workspaceId
          && a.value.participantCount == b.value.participantCount
          && a.value.channel.id == b.value.channel.id)
  }

  ghost predicate SameChannels(a: Chat, b: Chat) {
    && a.bot == b.bot && a.lastChannel == b.lastChannel && a.channels.Keys == b.channels.Keys
    && forall c :: c in a.channels ==> a.channels[c].members == b.channels[c].members
  }

  ghost predicate SameRoster(s: State, s': State) {
    && s'.db.parts == s.db.parts
    && s'.workspaces == s.workspaces
    && s'.db.nextId >= s.db.nextId
    && SameChannels(s.chat, s'.chat)
    && forall id :: SameEvent(GetEvent(s.db.events, id), GetEvent(s'.db.events, id))
  }

  lemma SameRosterKeepsInv(s: State, s': State)
    requires Inv(s) && SameRoster(s, s')
    ensures Inv(s')
  {
    forall id | GetEvent(s'.db.events, id).Some?
      ensures EventOk(GetEvent(s'.db.events, id).value, s')
    {
      assert SameEvent(GetEvent(s.db.events, id), GetEvent(s'.db.events, id));
      assert EventOk(GetEvent(s.db.events, id).value, s);
    }
    forall a, b | a != b
      ensures Separate(GetEvent(s'.db.events, a), GetEvent(s'.db.events, b))
    {
      assert Separate(GetEvent(s.db.events, a), GetEvent(s.db.events, b));
      assert SameEvent(GetEvent(s.db.events, a), GetEvent(s'.db.events, a));
      assert SameEvent(GetEvent(s.db.events, b), GetEvent(s'.db.events, b));
    }
  }

  /** Overwriting the editable fields, or replacing the channel reference by one with the
      same id, changes neither counter nor membership. */
  lemma WriteKeepsRoster(s: State, id: nat, write: EventWrite)
    requires !write.CountBy?
    requires write.SetChannel? && GetEvent(s.db.events, id).Some? ==>
               write.channel.id == GetEvent(s.db.events, id).value.channel.id
    ensures SameRoster(s, s.(db := PutEvent(s.db, id, write)))
  {
    forall other
      ensures SameEvent(GetEvent(s.db.events, other), GetEvent(PutEvent(s.db, id, write).events, other))
    {
      GetAfterWrite(s.db.events, id, write, other);
    }
  }

  lemma {:induction false} EnqueueRemindersFrame(db: Db, eventId: nat, sequence: int, times: seq<int>, now: int)
    ensures var db' := EnqueueReminders(db, eventId, sequence, times, now);
            db'.events == db.events && db'.parts == db.parts && db'.logs == db.logs && db'.nextId >= db.nextId
    decreases |times|
  {
    if times != [] {
      if SentAt(db.logs, eventId, times[0]) {
        EnqueueRemindersFrame(db, eventId, sequence, times[1..], now);
      } else {
        var db' := EnqueueJob(db, NewReminderJob(eventId, sequence, times[0]), now);
        EnqueueRemindersFrame(db', eventId, sequence + 1, times[1..], now);
      }
    }
  }

  lemma ScheduleRemindersFrame(db: Db, ws: Settings, ev: Event, now: int)
    ensures var db' := ScheduleReminders(db, ws, ev, now).0;
            db'.events == db.events && db'.parts == db.parts && db'.logs == db.logs && db'.nextId >= db.nextId
  {
    var db1 := CancelJobs(db, ev.id, [Reminder], now);
    match Times(ev, ws.zone, now) {
      case Err(_) =>
      case Ok(times) => EnqueueRemindersFrame(db1, ev.id, HighestSequence(db1.jobs, ev.id) + 1, times, now);
    }
  }

  lemma UpdateKeepsInv(s: State, eventId: nat, u: EventUpdate, actor: Actor, now: int)
    requires Inv(s)
    ensures Inv(Update(s, eventId, u, actor, now).0)
  {
    var found := GetEvent(s.db.events, eventId);
    if found.Some? {
      var next := Edited(found.value, u, now);
      WriteKeepsRoster(s, eventId, Overwrite(next));
      if found.value.workspaceId in s.workspaces {
        ScheduleRemindersFrame(PutEvent(s.db, eventId, Overwrite(next)), s.workspaces[found.value.workspaceId], next, now);
      }
    }
    SameRosterKeepsInv(s, Update(s, eventId, u, actor, now).0);
  }

  lemma CloseKeepsRoster(s: State, eventId: nat, reason: EndReason, actor: Actor, now: int)
    ensures SameRoster(s, Close(s, eventId, reason, actor, now).0)
  {
    var found := GetEvent(s.db.events, eventId);
    if found.Some? {
      WriteKeepsRoster(s, eventId, Overwrite(Closed(found.value, CloseStatus(reason), reason, now)));
    }
  }

  lemma CloseKeepsInv(s: State, eventId: nat, reason: EndReason, actor: Actor, now: int)
    requires Inv(s)
    ensures Inv(Close(s, eventId, reason, actor, now).0)
  {
    CloseKeepsRoster(s, eventId, reason, actor, now);
    SameRosterKeepsInv(s, Close(s, eventId, reason, actor, now).0);
  }

  lemma ArchiveKeepsInv(s: State, eventId: nat, now: int)
    requires Inv(s)
    ensures Inv(ArchiveChannel(s, eventId, now).0)
  {
    var found := GetEvent(s.db.events, eventId);
    if found.Some? {
      WriteKeepsRoster(s, eventId, SetChannel(found.value.channel.(archived := true), now));
    }
    SameRosterKeepsInv(s, ArchiveChannel(s, eventId, now).0);
  }

  lemma JobsKeepInv(s: State, jobs: seq<Job>)
    requires Inv(s)
    ensures Inv(s.(db := s.db.(jobs := jobs)))
  {
    SameRosterKeepsInv(s, s.(db := s.db.(jobs := jobs)));
  }

  // ----- steps that change one participation record

  /** Only the record of user `u` in event `e` changed: whether it is active, and whether
      it counts as a participant. */
  ghost predicate Touched(parts: seq<Participation>, parts': seq<Participation>, e: nat, u: string,
                          counted: bool, counts: bool, active: bool)
  {
    && (forall e', u' :: (e' != e || u' != u) ==> IsActiveIn(parts', e', u') == IsActiveIn(parts, e', u'))
    && IsActiveIn(parts', e, u) == active
    && (forall e' :: CountActive(parts', e', Participant) ==
                     CountActive(parts, e', Participant) + if e' == e then One(counts) - One(counted) else 0)
  }

  lemma SetTouches(parts: seq<Participation>, i: nat, part: Participation)
    requires i < |parts| && part.eventId == parts[i].eventId && part.userId == parts[i].userId
    requires FindUser(parts, part.eventId, part.userId) == Some(i)
    ensures Touched(parts, parts[i := part], part.eventId, part.userId,
                    CountsAs(parts[i], part.eventId, Participant), CountsAs(part, part.eventId, Participant), part.IsActive())
  {
    forall e, u
      ensures FindUser(parts[i := part], e, u) == FindUser(parts, e, u)
    {
      FindUserSet(parts, i, part, e, u);
    }
    forall e
      ensures CountActive(parts[i := part], e, Participant) ==
              CountActive(parts, e, Participant) - One(CountsAs(parts[i], e, Participant)) + One(CountsAs(part, e, Participant))
    {
      CountSet(parts, i, part, e, Participant);
    }
  }

  lemma AppendTouches(parts: seq<Participation>, part: Participation)
    requires FindUser(parts, part.eventId, part.userId).None?
    ensures Touched(parts, parts + [part], part.eventId, part.userId,
                    false, CountsAs(part, part.eventId, Participant), part.IsActive())
  {
    forall e, u
      ensures FindUser(parts + [part], e, u) ==
              if FindUser(parts, e, u).Some? then FindUser(parts, e, u)
              else if part.eventId == e && part.userId == u then Some(|parts|) else None
    {
      FindUserAppend(parts, part, e, u);
    }
    forall e
      ensures CountActive(parts + [part], e, Participant) ==
              CountActive(parts, e, Participant) + One(CountsAs(part, e, Participant))
    {
      CountAppend(parts, part, e, Participant);
    }
  }

  /** Event `e` had its counter moved with the record. */
  ghost predicate CountMoved(a: Option<Event>, b: Option<Event>, delta: int) {
    a.Some? && b.Some? && SameEvent(a, Some(b.value.(participantCount := a.value.participantCount)))
    && b.value.participantCount == a.value.participantCount + delta
  }

  /** The channel of event `e`, if it has one, gained or lost exactly user `u`. */
  ghost predicate MemberMoved(a: Chat, b: Chat, channel: Option<nat>, u: string, active: bool) {
    && a.bot == b.bot && a.lastChannel == b.lastChannel && a.channels.Keys == b.channels.Keys
    && (forall c :: c in a.channels && channel != Some(c) ==> a.channels[c].members == b.channels[c].members)
    && (channel.Some? && channel.value in a.channels ==>
          var before, after := a.channels[channel.value].members, b.channels[channel.value].members;
          && Distinct(after)
          && (forall x :: x in after <==> if x == u then active else x in before))
  }

  lemma TouchKeepsInv(s: State, s': State, e: nat, u: string, counted: bool, counts: bool, active: bool)
    requires Inv(s) && u != s.chat.bot && s'.workspaces == s.workspaces && s'.db.nextId >= s.db.nextId
    requires PartsOk(s'.db.parts, s'.db.nextId, s.chat.bot)
    requires Touched(s.db.parts, s'.db.parts, e, u, counted, counts, active)
    requires CountMoved(GetEvent(s.db.events, e), GetEvent(s'.db.events, e), One(counts) - One(counted))
    requires forall id :: id != e ==> SameEvent(GetEvent(s.db.events, id), GetEvent(s'.db.events, id))
    requires MemberMoved(s.chat, s'.chat, GetEvent(s.db.events, e).value.channel.id, u, active)
    ensures Inv(s')
  {
    var channel := GetEvent(s.db.events, e).value.channel.id;
    forall id | GetEvent(s'.db.events, id).Some?
      ensures EventOk(GetEvent(s'.db.events, id).value, s')
    {
      assert id != e ==> SameEvent(GetEvent(s.db.events, id), GetEvent(s'.db.events, id));
      var ev, ev' := GetEvent(s.db.events, id).value, GetEvent(s'.db.events, id).value;
      assert EventOk(ev, s);
      assert Separate(GetEvent(s.db.events, e), GetEvent(s.db.events, id)) || id == e;
      if ev.channel.id.Some? {
        var c := ev.channel.id.value;
        assert id != e ==> channel != Some(c);
        assert MembersOk(s.chat.channels[c].members, s.chat.bot, s.db.parts, id);
        assert MembersOk(s'.chat.channels[c].members, s.chat.bot, s'.db.parts, id);
      }
    }
    forall a, b | a != b
      ensures Separate(GetEvent(s'.db.events, a), GetEvent(s'.db.events, b))
    {
      assert Separate(GetEvent(s.db.events, a), GetEvent(s.db.events, b));
      assert a != e ==> SameEvent(GetEvent(s.db.events, a), GetEvent(s'.db.events, a));
      assert b != e ==> SameEvent(GetEvent(s.db.events, b), GetEvent(s'.db.events, b));
    }
  }

  /** Adding to the count of one event. */
  lemma AddCountMoves(events: seq<Event>, e: nat, delta: int, now: int)
    requires GetEvent(events, e).Some?
    ensures var events' := WriteEvent(events, e, CountBy(delta, now));
            && CountMoved(GetEvent(events, e), GetEvent(events', e), delta)
            && forall id :: id != e ==> SameEvent(GetEvent(events, id), GetEvent(events', id))
  {
    forall id
      ensures GetEvent(WriteEvent(events, e, CountBy(delta, now)), id) ==
              if id == e then Some(WrittenEvent(GetEvent(events, e).value, CountBy(delta, now)))
              else GetEvent(events, id)
    {
      GetAfterWrite(events, e, CountBy(delta, now), id);
    }
  }

  lemma WithMemberAdds(members: seq<string>, user: string)
    requires Distinct(members)
    ensures Distinct(WithMember(members, user))
    ensures forall x :: x in WithMember(members, user) <==> x == user || x in members
  {
    if user !in members {
      DistinctAppend(members, user);
    }
  }

  lemma {:induction false} WithoutMemberRemoves(members: seq<string>, user: string)
    requires Distinct(members)
    ensures Distinct(WithoutMember(members, user))
    ensures forall x :: x in WithoutMember(members, user) <==> x != user && x in members
  {
    if members != [] {
      assert members == [members[0]] + members[1..];
      if members[0] == user {
        assert user !in members[1..];
      } else {
        WithoutMemberRemoves(members[1..], user);
        var rest := WithoutMember(members[1..], user);
        assert members[0] !in members[1..];
        forall i, j | 0 <= i < j < |rest| + 1
          ensures ([members[0]] + rest)[i] != ([members[0]] + rest)[j]
        {
          assert rest[j - 1] in rest;
        }
      }
    }
  }

  // ----- joining, leaving, creating

  /** An upsert touches one record and keeps the records in order. */
  lemma UpsertTouches(db: Db, bot: string, entry: Entry, now: int)
    requires PartsOk(db.parts, db.nextId, bot) && entry.eventId < db.nextId && entry.userId != bot
    requires DecideTransition(At(db.parts, FindUser(db.parts, entry.eventId, entry.userId)), Join).change != AlreadyParticipant
    ensures var (db', before, after) := UpsertPart(db, entry, now);
      && before == At(db.parts, FindUser(db.parts, entry.eventId, entry.userId))
      && PartsOk(db'.parts, db'.nextId, bot)
      && db' == db.(parts := db'.parts, nextId := db'.nextId) && db'.nextId >= db.nextId
      && Touched(db.parts, db'.parts, entry.eventId, entry.userId, false, entry.role == Participant, true)
  {
    match FindUser(db.parts, entry.eventId, entry.userId) {
      case None => AppendTouches(db.parts, Created(entry, db.nextId, now));
      case Some(i) => SetTouches(db.parts, i, Renewed(db.parts[i], entry, now));
    }
  }

  lemma AddMemberMoves(s: State, ev: Event, user: string)
    requires Inv(s) && GetEvent(s.db.events, ev.id) == Some(ev) && user != s.chat.bot
    ensures JoinChannel(s, ev, user, 0).1.Ok? && JoinChannel(s, ev, user, 0).0.db == s.db
    ensures MemberMoved(s.chat, JoinChannel(s, ev, user, 0).0.chat, ev.channel.id, user, true)
    ensures IsActiveIn(s.db.parts, ev.id, user) ==> MemberMoved(s.chat, s.chat, ev.channel.id, user, true)
  {
    assert EventOk(ev, s);
    if ev.channel.id.Some? {
      WithMemberAdds(s.chat.channels[ev.channel.id.value].members, user);
    }
  }

  lemma JoinIgnoresDb(s: State, db: Db, ev: Event, user: string, now: int)
    requires JoinChannel(s, ev, user, 0).1.Ok?
    ensures JoinChannel(s.(db := db), ev, user, now) == (JoinChannel(s, ev, user, 0).0.(db := db), Ok(()))
  {
  }

  function EntryOf(ev: Event, ws: Settings, user: string, t: Transition, now: int): Entry {
    Entry(ev.id, ev.workspaceId, user, t.role, if t.role == Peeker then Some(now + ws.peekDuration) else None)
  }

  /** Run alone, a press settles on the transition it decided on. */
  lemma PressRunsThrough(s: State, ev: Event, ws: Settings, user: string, action: Action, t: Transition, now: int)
    requires t == DecideTransition(At(s.db.parts, FindUser(s.db.parts, ev.id, user)), action)
    requires JoinChannel(s, ev, user, 0).1.Ok? && JoinChannel(s, ev, user, 0).0.db == s.db
    ensures var (db, _, after) := UpsertPart(s.db, EntryOf(ev, ws, user, t, now), now);
            var joined := if t.addToChannel then JoinChannel(s, ev, user, 0).0 else s;
            Press(s, ev, ws, user, action, t, now) == (joined.(db := AfterTransition(db, ev, after, t, now)), Ok(t))
  {
    JoinIgnoresDb(s, UpsertPart(s.db, EntryOf(ev, ws, user, t, now), now).0, ev, user, now);
  }

  /** A press with effects: the counter, the member list and the record move together. */
  lemma PressKeepsInv(s: State, ev: Event, ws: Settings, user: string, action: Action, t: Transition, now: int)
    requires Inv(s) && user != s.chat.bot
    requires GetEvent(s.db.events, ev.id) == Some(ev)
    requires t == DecideTransition(At(s.db.parts, FindUser(s.db.parts, ev.id, user)), action)
    requires t.addToChannel || t.cancelPeekJob
    ensures Inv(Press(s, ev, ws, user, action, t, now).0)
    ensures Press(s, ev, ws, user, action, t, now).1 == Ok(t)
  {
    assert EventOk(ev, s);
    UpsertTouches(s.db, s.chat.bot, EntryOf(ev, ws, user, t, now), now);
    var (db, before, after) := UpsertPart(s.db, EntryOf(ev, ws, user, t, now), now);
    AddMemberMoves(s, ev, user);
    PressRunsThrough(s, ev, ws, user, action, t, now);
    AfterTransitionFrame(db, ev, after, t, now);
    var joined := if t.addToChannel then JoinChannel(s, ev, user, 0).0 else s;
    PressedKeepsInv(s, joined.chat, AfterTransition(db, ev, after, t, now), ev, user, t, now);
  }

  lemma PressedKeepsInv(s: State, chat: Chat, db: Db, ev: Event, user: string, t: Transition, now: int)
    requires Inv(s) && user != s.chat.bot && GetEvent(s.db.events, ev.id) == Some(ev) && db.nextId >= s.db.nextId
    requires PartsOk(db.parts, db.nextId, s.chat.bot)
    requires Touched(s.db.parts, db.parts, ev.id, user, false, t.role == Participant, true)
    requires db.events == if t.role == Participant then WriteEvent(s.db.events, ev.id, CountBy(1, now))
                          else s.db.events
    requires MemberMoved(s.chat, chat, ev.channel.id, user, true)
    ensures Inv(s.(chat := chat, db := db))
  {
    AddCountMoves(s.db.events, ev.id, 1, now);
    TouchKeepsInv(s, s.(chat := chat, db := db), ev.id, user, false, t.role == Participant, true);
  }

  lemma ApplyKeepsInv(s: State, eventId: nat, user: string, action: Action, now: int)
    requires Inv(s) && user != s.chat.bot
    ensures Inv(Apply(s, eventId, user, action, now).0)
  {
    match OpenEvent(s, eventId) {
      case Err(_) =>
      case Ok((ev, ws)) =>
        var t := DecideTransition(At(s.db.parts, FindUser(s.db.parts, eventId, user)), action);
        if t.addToChannel || t.cancelPeekJob {
          PressKeepsInv(s, ev, ws, user, action, t, now);
        }
    }
  }

  lemma AfterTransitionFrame(db: Db, ev: Event, part: Participation, t: Transition, now: int)
    ensures var db' := AfterTransition(db, ev, part, t, now);
      && db'.parts == db.parts && db'.nextId >= db.nextId && db'.logs == db.logs
      && db'.events == if t.role == Participant then WriteEvent(db.events, ev.id, CountBy(1, now)) else db.events
  {
  }

  /** With unique ids and unique users, looking a record up by id or by user is the same. */
  lemma SameRecord(parts: seq<Participation>, nextId: nat, bot: string, i: nat)
    requires PartsOk(parts, nextId, bot) && i < |parts|
    ensures FindId(parts, parts[i].id) == Some(i)
    ensures FindUser(parts, parts[i].eventId, parts[i].userId) == Some(i)
  {
  }

  lemma RemoveMemberMoves(s: State, ev: Event, user: string)
    requires Inv(s) && GetEvent(s.db.events, ev.id) == Some(ev)
    ensures LeaveChannel(s, ev, user, 0).1.Ok? && LeaveChannel(s, ev, user, 0).0.db == s.db
    ensures LeaveChannel(s, ev, user, 0).0.workspaces == s.workspaces
    ensures MemberMoved(s.chat, LeaveChannel(s, ev, user, 0).0.chat, ev.channel.id, user, false)
  {
    assert EventOk(ev, s);
    if ev.channel.id.Some? {
      WithoutMemberRemoves(s.chat.channels[ev.channel.id.value].members, user);
    }
  }

  /** Run alone, a detachment goes through to the end. */
  lemma DetachRunsThrough(s: State, ev: Event, part: Participation, status: Standing, now: int)
    requires FindId(s.db.parts, part.id).Some?
    requires LeaveChannel(s, ev, part.userId, 0).1.Ok? && LeaveChannel(s, ev, part.userId, 0).0.db == s.db
    ensures var db := s.db.(parts := SetStatus(s.db.parts, part.id, status, now));
            Detach(s, ev, part, status, now) ==
            (LeaveChannel(s, ev, part.userId, 0).0.(db := if part.role == Participant then AddCount(db, ev.id, -1, now) else db),
             Ok(()))
  {
  }

  lemma DetachKeepsInv(s: State, ev: Event, i: nat, status: Standing, now: int)
    requires Inv(s) && i < |s.db.parts| && s.db.parts[i].IsActive() && status != Active
    requires GetEvent(s.db.events, ev.id) == Some(ev) && s.db.parts[i].eventId == ev.id
    ensures Inv(Detach(s, ev, s.db.parts[i], status, now).0)
    ensures Detach(s, ev, s.db.parts[i], status, now).1.Ok?
  {
    var part := s.db.parts[i];
    SameRecord(s.db.parts, s.db.nextId, s.chat.bot, i);
    SetTouches(s.db.parts, i, WithStatus(part, status, now));
    RemoveMemberMoves(s, ev, part.userId);
    DetachRunsThrough(s, ev, part, status, now);
    AddCountMoves(s.db.events, ev.id, -1, now);
    TouchKeepsInv(s, Detach(s, ev, part, status, now).0, ev.id, part.userId, part.role == Participant, false, false);
  }

  lemma LeaveKeepsInv(s: State, eventId: nat, user: string, now: int)
    requires Inv(s)
    ensures Inv(Leave(s, eventId, user, now).0)
  {
    var i := FindUser(s.db.parts, eventId, user);
    if OpenEvent(s, eventId).Ok? && i.Some? && s.db.parts[i.value].IsActive() {
      DetachKeepsInv(s, OpenEvent(s, eventId).value.0, i.value, Left, now);
    }
  }

  lemma RemoveKeepsInv(s: State, eventId: nat, user: string, online: bool, now: int)
    requires Inv(s)
    ensures Inv(Remove(s, eventId, user, online, now).0)
  {
    var i := FindUser(s.db.parts, eventId, user);
    if OpenEvent(s, eventId).Ok? && i.Some? && s.db.parts[i.value].IsActive() {
      DetachKeepsInv(s, OpenEvent(s, eventId).value.0, i.value, Removed, now);
    }
  }

  lemma ExpirePeekKeepsInv(s: State, id: nat, now: int)
    requires Inv(s)
    ensures Inv(ExpirePeek(s, id, now).0)
  {
    var i := FindId(s.db.parts, id);
    if i.Some? && s.db.parts[i.value].IsActive() {
      var ev := GetEvent(s.db.events, s.db.parts[i.value].eventId);
      if ev.Some? {
        DetachKeepsInv(s, ev.value, i.value, Expired, now);
      }
    }
  }

  /** The store after appending a fresh event. */
  function WithEvent(s: State, ev: Event): State {
    s.(db := s.db.(events := s.db.events + [ev], nextId := s.db.nextId + 1))
  }

  /** The store with a fresh event and its organizer. */
  function WithOrganizer(s: State, ev: Event, now: int): State {
    WithEvent(s, ev).(db := RegisterOrganizer(WithEvent(s, ev).db, ev, now))
  }

  lemma FreshEventKeepsInv(s: State, ev: Event)
    requires Inv(s) && ev.id == s.db.nextId && ev.workspaceId in s.workspaces
    requires ev.channel.id.None? && ev.participantCount == 0
    ensures Inv(WithEvent(s, ev)) && GetEvent(WithEvent(s, ev).db.events, ev.id) == Some(ev)
    ensures FindUser(s.db.parts, ev.id, ev.organizer).None?
  {
    var s1 := WithEvent(s, ev);
    assert GetEvent(s.db.events, ev.id).None?;
    CountNone(s.db.parts, ev.id, Participant);
    forall id
      ensures GetEvent(s1.db.events, id) == if id == ev.id then Some(ev) else GetEvent(s.db.events, id)
    {
      GetAfterAppend(s.db.events, ev, id);
    }
    forall id | GetEvent(s1.db.events, id).Some?
      ensures EventOk(GetEvent(s1.db.events, id).value, s1)
    {
      assert id != ev.id ==> EventOk(GetEvent(s.db.events, id).value, s);
    }
    forall a, b | a != b
      ensures Separate(GetEvent(s1.db.events, a), GetEvent(s1.db.events, b))
    {
      assert Separate(GetEvent(s.db.events, a), GetEvent(s.db.events, b));
      if b == ev.id && GetEvent(s.db.events, a).Some? {
        assert EventOk(GetEvent(s.db.events, a).value, s);
      }
    }
  }

  /** The organizer of a fresh event is its one participant. */
  lemma RegisterKeepsInv(s: State, ev: Event, now: int)
    requires Inv(s) && GetEvent(s.db.events, ev.id) == Some(ev) && ev.channel.id.None?
    requires forall u :: FindUser(s.db.parts, ev.id, u).None?
    requires ev.organizer != s.chat.bot
    ensures var s' := s.(db := RegisterOrganizer(s.db, ev, now));
      && Inv(s')
      && CountMoved(Some(ev), GetEvent(s'.db.events, ev.id), 1)
      && forall u :: IsActiveIn(s'.db.parts, ev.id, u) <==> u == ev.organizer
  {
    assert EventOk(ev, s);
    var entry := Entry(ev.id, ev.workspaceId, ev.organizer, Participant, None);
    UpsertTouches(s.db, s.chat.bot, entry, now);
    AddCountMoves(s.db.events, ev.id, 1, now);
    TouchKeepsInv(s, s.(db := RegisterOrganizer(s.db, ev, now)), ev.id, ev.organizer, false, true, true);
  }

  lemma {:induction false} TryNamesOutcome(chat: Chat, names: seq<string>, members: seq<string>)
    ensures var (chat', r) := TryNames(chat, names, members);
      if r.Err? then chat' == chat
      else
        && r.value.0 == chat.lastChannel + 1
        && r.value.1 in names && !NameInUse(chat, r.value.1)
        && chat' == chat.(lastChannel := r.value.0,
                          channels := chat.channels[r.value.0 := Channel(r.value.1, [chat.bot] + members, false)])
    decreases |names|
  {
    if names != [] && NameInUse(chat, names[0]) {
      TryNamesOutcome(chat, names[1..], members);
    }
  }

  /** The new channel starts with the bot and the organizer. */
  lemma ChannelKeepsInv(s: State, chat: Chat, ev: Event, name: string, now: int)
    requires Inv(s) && CountMoved(Some(ev), GetEvent(s.db.events, ev.id), 0) && ev.channel.id.None?
    requires ev.organizer != s.chat.bot && forall u :: IsActiveIn(s.db.parts, ev.id, u) <==> u == ev.organizer
    requires var c := s.chat.lastChannel + 1;
      chat == s.chat.(lastChannel := c, channels := s.chat.channels[c := Channel(name, [s.chat.bot, ev.organizer], false)])
    ensures Inv(s.(chat := chat, db := PutEvent(s.db, ev.id, SetChannel(ChannelRef(Some(chat.lastChannel), name, false), now))))
  {
    var c := chat.lastChannel;
    var write := SetChannel(ChannelRef(Some(c), name, false), now);
    var s' := s.(chat := chat, db := PutEvent(s.db, ev.id, write));
    assert c !in s.chat.channels;
    forall id
      ensures GetEvent(s'.db.events, id) ==
              if id == ev.id then Some(WrittenEvent(GetEvent(s.db.events, id).value, write)) else GetEvent(s.db.events, id)
    {
      GetAfterWrite(s.db.events, ev.id, write, id);
    }
    forall id | GetEvent(s'.db.events, id).Some?
      ensures EventOk(GetEvent(s'.db.events, id).value, s')
    {
      assert EventOk(GetEvent(s.db.events, id).value, s);
    }
    forall a, b | a != b
      ensures Separate(GetEvent(s'.db.events, a), GetEvent(s'.db.events, b))
    {
      assert Separate(GetEvent(s.db.events, a), GetEvent(s.db.events, b));
      if GetEvent(s.db.events, a).Some? { assert EventOk(GetEvent(s.db.events, a).value, s); }
      if GetEvent(s.db.events, b).Some? { assert EventOk(GetEvent(s.db.events, b).value, s); }
    }
  }

  lemma AbortKeepsInv(s: State, ev: Event, now: int)
    requires Inv(s)
    ensures Inv(s.(db := AbortProvision(s.db, ev, now)))
  {
    WriteKeepsRoster(s, ev.id, Overwrite(Closed(ev, CanceledEvent, ProvisionFailed, now)));
    SameRosterKeepsInv(s, s.(db := AbortProvision(s.db, ev, now)));
  }

  lemma ProvisionKeepsInv(s: State, input: CreateInput, ws: Settings, ev: Event, now: int)
    requires Inv(s) && CountMoved(Some(ev), GetEvent(s.db.events, ev.id), 0) && ev.channel.id.None?
    requires ev.organizer != s.chat.bot && forall u :: IsActiveIn(s.db.parts, ev.id, u) <==> u == ev.organizer
    ensures Inv(Provision(s, input, ws, ev, now).0)
  {
    var names := [input.name, input.name2, input.name3];
    TryNamesOutcome(s.chat, names, [ev.organizer]);
    match TryNames(s.chat, names, [ev.organizer]) {
      case (_, Err(e)) => AbortKeepsInv(s, ev, now);
      case (chat, Ok((c, name))) =>
        assert [s.chat.bot] + [ev.organizer] == [s.chat.bot, ev.organizer];
        ChannelKeepsInv(s, chat, ev, name, now);
        var ref := ChannelRef(Some(c), name, false);
        var ev1 := ev.(channel := ref);
        var s1 := s.(chat := chat, db := PutEvent(s.db, ev.id, SetChannel(ref, now)));
        AbortKeepsInv(s1, ev1, now);
        ScheduleRemindersFrame(s1.db, ws, ev1, now);
        SameRosterKeepsInv(s1, s1.(db := ScheduleReminders(s1.db, ws, ev1, now).0));
        var db2 := ScheduleReminders(s1.db, ws, ev1, now).0;
        SameRosterKeepsInv(s1, s1.(db := EnqueueJob(db2, NewAutoEndJob(ev1.id, ev1.AutoEndAt(ws.autoEndGrace)), now)));
    }
  }

  lemma CreateKeepsInv(s: State, input: CreateInput, now: int)
    requires Inv(s) && input.params.organizer != s.chat.bot
    ensures Inv(Create(s, input, now).0)
  {
    if input.online && input.params.workspaceId in s.workspaces {
      var ws := s.workspaces[input.params.workspaceId];
      var ev := FreshEvent(Params(input, ws), s.db.nextId, now);
      FreshEventKeepsInv(s, ev);
      var s1 := WithEvent(s, ev);
      assert forall i :: 0 <= i < |s.db.parts| ==> s.db.parts[i].eventId != ev.id;
      assert forall u :: FindUser(s1.db.parts, ev.id, u).None?;
      RegisterKeepsInv(s1, ev, now);
      ProvisionKeepsInv(s1.(db := RegisterOrganizer(s1.db, ev, now)), input, ws, ev.(participantCount := 1), now);
    }
  }

  // ----- jobs

  lemma SendKeepsInv(s: State, eventId: nat, sequence: int, scheduledFor: int, now: int)
    requires Inv(s)
    ensures Inv(Send(s, eventId, sequence, scheduledFor, now).0)
  {
    SameRosterKeepsInv(s, Send(s, eventId, sequence, scheduledFor, now).0);
  }

  lemma HandleKeepsInv(s: State, job: Job, now: int)
    requires Inv(s)
    ensures Inv(Handle(s, job, now).0)
  {
    match job.kind {
      case Reminder => SendKeepsInv(s, job.payload.eventId, job.payload.sequence, job.payload.scheduledFor, now);
      case PeekExpire =>
        PeekHandled(s, job, now);
      case AutoEnd =>
        AutoEndHandled(s, job, now);
      case Archive => ArchiveKeepsInv(s, job.payload.eventId, now);
      case Unknown(_) =>
    }
  }

  lemma RescheduleKeepsInv(s: State, job: Job, runAt: int, now: int)
    requires Inv(s)
    ensures Inv(RescheduleJob(s, job, runAt, now).0)
  {
    JobsKeepInv(s, WriteBack(s.db.jobs, job.id, Reschedule(runAt), now));
  }

  lemma PeekHandled(s: State, job: Job, now: int)
    requires Inv(s)
    ensures Inv(HandlePeekExpire(s, job, now).0)
  {
    ExpirePeekKeepsInv(s, job.payload.participationId, now);
    match ExpirePeek(s, job.payload.participationId, now) {
      case (s', Err(_)) =>
      case (s', Ok((part, _))) =>
        if part.Some? && part.value.expiresAt.Some? {
          RescheduleKeepsInv(s', job, part.value.expiresAt.value, now);
        }
    }
  }

  lemma AutoEndHandled(s: State, job: Job, now: int)
    requires Inv(s)
    ensures Inv(HandleAutoEnd(s, job, now).0)
  {
    var found := GetEvent(s.db.events, job.payload.eventId);
    if found.Some? && found.value.workspaceId in s.workspaces {
      RescheduleKeepsInv(s, job, found.value.AutoEndAt(s.workspaces[found.value.workspaceId].autoEndGrace), now);
      CloseKeepsInv(s, found.value.id, Auto, Actor("", true), now);
    }
  }

  lemma WriteHandledKeepsInv(s: State, job: Job, handled: Handled, now: int)
    requires Inv(s)
    ensures Inv(WriteHandled(s, job, handled, now))
  {
    SameRosterKeepsInv(s, WriteHandled(s, job, handled, now));
  }

  lemma RunClaimedKeepsInv(s: State, job: Job, now: int)
    requires Inv(s)
    ensures Inv(RunClaimed(s, job, now))
  {
    if job.attempts > job.maxAttempts {
      JobsKeepInv(s, WriteBack(s.db.jobs, job.id, Fail("max attempts exceeded"), now));
    } else {
      HandleKeepsInv(s, job, now);
      var (s', handled) := Handle(s, job, now);
      WriteHandledKeepsInv(s', job, handled, now);
    }
  }
}
