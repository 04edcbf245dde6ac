/** What creating an event leaves behind, and exactly when it is refused (Create in
    usecase/event.go, NewEvent in domain/event.go), in terms of what was asked for. */
module Creations {
  import opened Common
  import opened Jobs
  import opened Reminders
  import opened Participations
  import opened Events
  import opened Manager
  import Edits
  import JobShapes
  import Lifecycle
  import Outcomes
  import ReminderRuns
  import Roster

  // ----- what is asked for

  /** The given policy, or the default of the workspace. */
  function PolicyFor(s: State, input: CreateInput): Policy
    requires input.params.workspaceId in s.workspaces
  {
    if input.policyGiven then input.params.policy else s.workspaces[input.params.workspaceId].defaultPolicy
  }

  /** Why an event is refused before anything is stored, in this order. */
  ghost function Refusal(s: State, input: CreateInput, now: int): Option<Error> {
    var p := input.params;
    if !input.online then Some(ProviderUnavailable)
    else if p.workspaceId !in s.workspaces then Some(NotFound)
    else if p.textValid && p.organizer != "" && now < p.startsAt && (p.endsAt.Some? ==> p.startsAt < p.endsAt.value)
            && Valid(PolicyFor(s, input))
      then None
    else Some(Validation)
  }

  predicate Taken(chat: Chat, name: string) {
    exists c :: c in chat.channels && chat.channels[c].name == name && !chat.channels[c].archived
  }

  /** The first of these names that no live channel has. */
  function FirstFree(chat: Chat, names: seq<string>): (r: Option<string>)
    ensures r.None? <==> forall i :: 0 <= i < |names| ==> Taken(chat, names[i])
  {
    if names == [] then None else if Taken(chat, names[0]) then FirstFree(chat, names[1..]) else Some(names[0])
  }

  function ChannelName(s: State, input: CreateInput): Option<string> {
    FirstFree(s.chat, [input.name, input.name2, input.name3])
  }

  // ----- what is left behind

  /** The event as asked for, with its organizer as the one participant. */
  ghost predicate AsAsked(s: State, input: CreateInput, now: int, stored: Event)
    requires input.params.workspaceId in s.workspaces
  {
    var p := input.params;
    && stored.startsAt == p.startsAt && stored.endsAt == p.endsAt && stored.policy == PolicyFor(s, input)
    && stored.workspaceId == p.workspaceId && stored.organizer == p.organizer && stored.participantCount == 1
    && stored.createdAt == now == stored.updatedAt
  }

  ghost predicate OpenWith(stored: Event, channel: ChannelRef) {
    stored.status == Open && stored.endedAt == None && stored.endReason == None && stored.channel == channel
  }

  /** Provisioning failed: canceled at once. */
  ghost predicate AbortedWith(stored: Event, channel: ChannelRef, now: int) {
    && stored.status == CanceledEvent && stored.endedAt == Some(now) && stored.endReason == Some(ProvisionFailed)
    && stored.channel == channel
  }

  ghost predicate OrganizerIn(part: Participation, input: CreateInput, id: nat, now: int) {
    && part.eventId == id && part.userId == input.params.organizer && part.workspaceId == input.params.workspaceId
    && part.role == Participant && part.status == Active && part.joinedAt == now && part.expiresAt == None && part.peekCount == 0
  }

  /** A new event and its organizer's record; all other events, records and the log stay. */
  ghost predicate Added(s: State, s': State, input: CreateInput, now: int, id: nat) {
    && GetEvent(s.db.events, id).None? && GetEvent(s'.db.events, id).Some?
    && (forall e: nat :: e != id ==> GetEvent(s'.db.events, e) == GetEvent(s.db.events, e))
    && (var record := Outcomes.RecordOf(s', id, input.params.organizer);
        record.Some? && OrganizerIn(record.value, input, id, now))
    && (forall e: nat, u :: (e != id || u != input.params.organizer) ==> Outcomes.RecordOf(s', e, u) == Outcomes.RecordOf(s, e, u))
    && s'.db.logs == s.db.logs && s'.workspaces == s.workspaces
  }

  /** A fresh channel with the bot and the organizer, beside the others. */
  ghost predicate ChannelMade(chat: Chat, chat': Chat, name: string, organizer: string) {
    && chat'.bot == chat.bot && chat'.lastChannel == chat.lastChannel + 1
    && chat'.channels == chat.channels[chat.lastChannel + 1 := Channel(name, [chat.bot, organizer], false)]
  }

  ghost predicate OneArchiveJob(jobs: seq<Job>, jobs': seq<Job>, id: nat, now: int) {
    && |jobs'| == |jobs| + 1 && jobs <= jobs'
    && Outcomes.Waits(jobs'[|jobs|], Archive, id, now)
  }

  /** Reminders of the event, and last its auto-end job, due at the end, or after the grace. */
  ghost predicate PlannedJobs(s: State, jobs': seq<Job>, input: CreateInput, id: nat)
    requires input.params.workspaceId in s.workspaces
  {
    var jobs, last := s.db.jobs, |jobs'| - 1;
    && |jobs| <= last && jobs <= jobs'
    && (forall k :: |jobs| <= k < last ==> Edits.NewReminder(jobs'[k], id))
    && Outcomes.Waits(jobs'[last], AutoEnd, id,
         Edits.EndMoment(input.params.startsAt, input.params.endsAt, s.workspaces[input.params.workspaceId].autoEndGrace))
  }

  /** How far provisioning came, in order: no name was free; nothing could be posted; the
      policy cannot be planned; everything went well. */
  ghost predicate Provisioned(s: State, s': State, r: Result<nat, Error>, input: CreateInput, now: int, id: nat, stored: Event)
    requires input.params.workspaceId in s.workspaces
  {
    match ChannelName(s, input)
    case None =>
      r == Err(NameTaken) && AbortedWith(stored, ChannelRef(None, "", false), now) && s'.chat == s.chat && s'.db.jobs == s.db.jobs
    case Some(name) =>
      var channel := ChannelRef(Some(s.chat.lastChannel + 1), name, false);
      && ChannelMade(s.chat, s'.chat, name, input.params.organizer)
      && if !input.posts then
           r == Err(ProviderUnavailable) && AbortedWith(stored, channel, now) && OneArchiveJob(s.db.jobs, s'.db.jobs, id, now)
         else
           && OpenWith(stored, channel)
           && if ReminderRuns.Plannable(PolicyFor(s, input), now, input.params.startsAt, s.workspaces[input.params.workspaceId].zone)
              then r == Ok(id) && PlannedJobs(s, s'.db.jobs, input, id)
              else r == Err(Validation) && s'.db.jobs == s.db.jobs
  }

  // ----- the event and its organizer are stored

  lemma OrganizerStored(s: State, ev: Event, input: CreateInput, now: int)
    requires Roster.Inv(s) && ev.id == s.db.nextId
    requires ev.workspaceId == input.params.workspaceId && ev.workspaceId in s.workspaces
    requires ev.organizer == input.params.organizer && ev.updatedAt == now
    requires ev.channel.id.None? && ev.participantCount == 0
    ensures var s' := Roster.WithOrganizer(s, ev, now);
      && Added(s, s', input, now, ev.id)
      && GetEvent(s'.db.events, ev.id) == Some(ev.(participantCount := 1))
      && s'.db.jobs == s.db.jobs && s'.chat == s.chat && ev.id < s'.db.nextId
  {
    var s1, s' := Roster.WithEvent(s, ev), Roster.WithOrganizer(s, ev, now);
    Roster.FreshEventKeepsInv(s, ev);
    forall e: nat
      ensures GetEvent(s1.db.events, e) == if e == ev.id then Some(ev) else GetEvent(s.db.events, e)
    {
      GetAfterAppend(s.db.events, ev, e);
    }
    Outcomes.OneEventWritten(s1.db.events, ev.id, CountBy(1, now));
    Outcomes.RecordsAfterUpsert(s1, s', Entry(ev.id, ev.workspaceId, ev.organizer, Participant, None), now);
  }

  // ----- provisioning

  lemma {:induction false} NamesTried(chat: Chat, names: seq<string>, organizer: string)
    ensures var (chat', r) := TryNames(chat, names, [organizer]);
      match FirstFree(chat, names)
      case None => chat' == chat && r == Err(NameTaken)
      case Some(name) => ChannelMade(chat, chat', name, organizer) && r == Ok((chat.lastChannel + 1, name))
    decreases |names|
  {
    if names != [] {
      if Taken(chat, names[0]) {
        NamesTried(chat, names[1..], organizer);
      } else {
        assert [chat.bot] + [organizer] == [chat.bot, organizer];
      }
    }
  }

  /** What one write of the event leaves of the others. */
  ghost predicate Rewrote(s: State, s': State, id: nat, stored: Event) {
    && GetEvent(s'.db.events, id) == Some(stored)
    && (forall e: nat :: e != id ==> GetEvent(s'.db.events, e) == GetEvent(s.db.events, e))
    && s'.db.parts == s.db.parts && s'.db.logs == s.db.logs && s'.workspaces == s.workspaces
  }

  lemma AddedThenRewrote(s: State, s1: State, s': State, input: CreateInput, now: int, id: nat, stored: Event)
    requires Added(s, s1, input, now, id) && Rewrote(s1, s', id, stored)
    ensures Added(s, s', input, now, id)
  {
  }

  lemma Aborts(s: State, ev: Event, now: int)
    requires JobShapes.Inv(s.db) && GetEvent(s.db.events, ev.id) == Some(ev) && ev.status == Open
    requires Lifecycle.Unused(s.db.jobs, ev.id)
    ensures var s' := s.(db := AbortProvision(s.db, ev, now));
      && Rewrote(s, s', ev.id, ev.(status := CanceledEvent, endReason := Some(ProvisionFailed), endedAt := Some(now), updatedAt := now))
      && (ev.channel.id.None? ==> s'.db.jobs == s.db.jobs)
      && (ev.channel.id.Some? ==> OneArchiveJob(s.db.jobs, s'.db.jobs, ev.id, now))
  {
    Outcomes.OneEventWritten(s.db.events, ev.id, Overwrite(Closed(ev, CanceledEvent, ProvisionFailed, now)));
    forall i | 0 <= i < |s.db.jobs|
      ensures s.db.jobs[i].key != ArchiveKey(ev.id)
    {
      assert JobShapes.Shaped(s.db.jobs[i]);
    }
  }

  /** Planning the first reminders and the auto-end job of an event. */
  lemma Plans(s: State, ws: Settings, ev: Event, now: int)
    requires JobShapes.Inv(s.db) && ev.status == Open && Lifecycle.Unused(s.db.jobs, ev.id)
    ensures var (db', r) := ScheduleReminders(s.db, ws, ev, now);
      && db'.events == s.db.events && db'.parts == s.db.parts && db'.logs == s.db.logs
      && s.db.jobs <= db'.jobs
      && (forall k :: |s.db.jobs| <= k < |db'.jobs| ==> Edits.NewReminder(db'.jobs[k], ev.id))
      && (r.Err? ==> db'.jobs == s.db.jobs)
      && !HasKey(db'.jobs, AutoEndKey(ev.id))
  {
    var db' := ScheduleReminders(s.db, ws, ev, now).0;
    Roster.ScheduleRemindersFrame(s.db, ws, ev, now);
    Edits.RegeneratesOnly(s.db, ws, ev, now);
    ReminderRuns.RegenerationSucceedsIff(s.db, ws, ev, now);
    assert CancelByEvent(s.db.jobs, ev.id, [Reminder], now) == s.db.jobs;
    forall k | 0 <= k < |s.db.jobs|
      ensures db'.jobs[k] == s.db.jobs[k] && s.db.jobs[k].key != AutoEndKey(ev.id)
    {
      assert JobShapes.Shaped(s.db.jobs[k]);
    }
    RemindersHaveOwnKeys(s.db, ws, ev, now);
  }

  lemma RemindersHaveOwnKeys(db: Db, ws: Settings, ev: Event, now: int)
    requires JobShapes.Inv(db) && Lifecycle.Unused(db.jobs, ev.id)
    ensures !HasKey(ScheduleReminders(db, ws, ev, now).0.jobs, AutoEndKey(ev.id))
  {
    var canceled := CancelJobs(db, ev.id, [Reminder], now);
    forall k | 0 <= k < |canceled.jobs|
      ensures canceled.jobs[k].key != AutoEndKey(ev.id)
    {
      assert JobShapes.Shaped(db.jobs[k]);
    }
    ReminderRuns.ScheduledAs(db, canceled, ws, ev, now);
    if Times(ev, ws.zone, now).Ok? {
      NoOtherKey(canceled, ev.id, HighestSequence(canceled.jobs, ev.id) + 1, Times(ev, ws.zone, now).value, now);
    }
  }

  lemma {:induction false} NoOtherKey(db: Db, id: nat, sequence: int, times: seq<int>, now: int)
    requires !HasKey(db.jobs, AutoEndKey(id))
    ensures !HasKey(EnqueueReminders(db, id, sequence, times, now).jobs, AutoEndKey(id))
    decreases |times|
  {
    if times != [] {
      if SentAt(db.logs, id, times[0]) {
        NoOtherKey(db, id, sequence, times[1..], now);
      } else {
        NoOtherKey(EnqueueJob(db, NewReminderJob(id, sequence, times[0]), now), id, sequence + 1, times[1..], now);
      }
    }
  }

  /** The channel is there and everything is posted: the plan decides. */
  lemma Announced(s: State, s': State, r: Result<nat, Error>, input: CreateInput, ws: Settings, ev: Event, now: int)
    requires JobShapes.Inv(s.db) && ev.status == Open && Lifecycle.Unused(s.db.jobs, ev.id)
    requires GetEvent(s.db.events, ev.id) == Some(ev)
    requires input.params.workspaceId in s.workspaces && ws == s.workspaces[input.params.workspaceId]
    requires ev.startsAt == input.params.startsAt && ev.endsAt == input.params.endsAt
    requires (s', r) ==
             match ScheduleReminders(s.db, ws, ev, now)
             case (db, Err(e)) => (s.(db := db), Err(e))
             case (db, Ok(_)) => (s.(db := EnqueueJob(db, NewAutoEndJob(ev.id, ev.AutoEndAt(ws.autoEndGrace)), now)), Ok(ev.id))
    ensures Rewrote(s, s', ev.id, ev) && s'.chat == s.chat
    ensures if ReminderRuns.Plannable(ev.policy, now, ev.startsAt, ws.zone)
            then r == Ok(ev.id) && PlannedJobs(s, s'.db.jobs, input, ev.id)
            else r == Err(Validation) && s'.db.jobs == s.db.jobs
  {
    Plans(s, ws, ev, now);
    ReminderRuns.RegenerationSucceedsIff(s.db, ws, ev, now);
  }

  lemma ProvisionOutcome(s: State, s': State, r: Result<nat, Error>, input: CreateInput, ws: Settings, ev: Event, now: int)
    requires JobShapes.Inv(s.db) && GetEvent(s.db.events, ev.id) == Some(ev) && ev.status == Open
    requires Lifecycle.Unused(s.db.jobs, ev.id) && OpenWith(ev, ChannelRef(None, "", false))
    requires input.params.workspaceId in s.workspaces && ws == s.workspaces[input.params.workspaceId]
    requires AsAsked(s, input, now, ev) && Provision(s, input, ws, ev, now) == (s', r)
    ensures var found := GetEvent(s'.db.events, ev.id);
      && found.Some? && Rewrote(s, s', ev.id, found.value)
      && AsAsked(s, input, now, found.value) && Provisioned(s, s', r, input, now, ev.id, found.value)
  {
    var names := [input.name, input.name2, input.name3];
    NamesTried(s.chat, names, ev.organizer);
    match TryNames(s.chat, names, [ev.organizer]) {
      case (_, Err(e)) => Aborts(s, ev, now);
      case (chat, Ok((c, name))) => ChannelledOutcome(s, s', r, input, ws, ev, now, chat, ChannelRef(Some(c), name, false));
    }
  }

  lemma ChannelledOutcome(s: State, s': State, r: Result<nat, Error>, input: CreateInput, ws: Settings, ev: Event, now: int,
                          chat: Chat, ref: ChannelRef)
    requires JobShapes.Inv(s.db) && GetEvent(s.db.events, ev.id) == Some(ev) && ev.status == Open
    requires Lifecycle.Unused(s.db.jobs, ev.id) && OpenWith(ev, ChannelRef(None, "", false))
    requires input.params.workspaceId in s.workspaces && ws == s.workspaces[input.params.workspaceId]
    requires AsAsked(s, input, now, ev) && Provision(s, input, ws, ev, now) == (s', r)
    requires ref.id.Some? && !ref.archived
    requires TryNames(s.chat, [input.name, input.name2, input.name3], [ev.organizer]) == (chat, Ok((ref.id.value, ref.name)))
    requires ChannelName(s, input) == Some(ref.name) && ref.id == Some(s.chat.lastChannel + 1)
    requires ChannelMade(s.chat, chat, ref.name, ev.organizer)
    ensures var found := GetEvent(s'.db.events, ev.id);
      && found.Some? && Rewrote(s, s', ev.id, found.value)
      && AsAsked(s, input, now, found.value) && Provisioned(s, s', r, input, now, ev.id, found.value)
  {
    var ev1 := ev.(channel := ref);
    var s1 := s.(chat := chat, db := PutEvent(s.db, ev.id, SetChannel(ref, now)));
    Outcomes.OneEventWritten(s.db.events, ev.id, SetChannel(ref, now));
    assert Rewrote(s, s1, ev.id, ev1);
    JobShapes.SameJobsKeepInv(s.db, s1.db);
    if input.posts {
      Announced(s1, s', r, input, ws, ev1, now);
    } else {
      Aborts(s1, ev1, now);
    }
  }

  // ----- the outcome

  /** The first failing check of the input names the error and changes nothing. An accepted
      event is stored as asked for, with its organizer, under a fresh id, beside everything
      that was there; creating it succeeds exactly when one of the names is free, the
      announcement can be posted and the policy can be planned, and a failure leaves the
      event as far as it came. */
  lemma CreateOutcome(s: State, s': State, r: Result<nat, Error>, input: CreateInput, now: int)
    requires Roster.Inv(s) && JobShapes.Inv(s.db) && Create(s, input, now) == (s', r)
    ensures match Refusal(s, input, now)
            case Some(e) => r == Err(e) && s' == s
            case None =>
              var id := s.db.nextId;
              && Added(s, s', input, now, id)
              && AsAsked(s, input, now, GetEvent(s'.db.events, id).value)
              && Provisioned(s, s', r, input, now, id, GetEvent(s'.db.events, id).value)
  {
    if Refusal(s, input, now).None? {
      Accepts(s, s', r, input, now);
    } else {
      Refuses(s, input, now);
    }
  }

  lemma Refuses(s: State, input: CreateInput, now: int)
    requires Refusal(s, input, now).Some?
    ensures Create(s, input, now) == (s, Err(Refusal(s, input, now).value))
  {
    hide Provision, FreshEvent, RegisterOrganizer, Valid;
  }

  /** Past the checks, the event to be stored is the one asked for. */
  lemma FreshIsAsked(s: State, input: CreateInput, now: int)
    requires Refusal(s, input, now).None?
    ensures input.online && input.params.workspaceId in s.workspaces
    ensures ValidNewEvent(Params(input, s.workspaces[input.params.workspaceId]), now)
    ensures var ev := FreshEvent(Params(input, s.workspaces[input.params.workspaceId]), s.db.nextId, now);
      && ev.id == s.db.nextId && ev.workspaceId == input.params.workspaceId && ev.organizer == input.params.organizer
      && ev.updatedAt == now && ev.channel.id.None? && ev.participantCount == 0
      && OpenWith(ev.(participantCount := 1), ChannelRef(None, "", false)) && AsAsked(s, input, now, ev.(participantCount := 1))
  {
    hide Valid;
  }

  lemma IsProvisioned(s: State, input: CreateInput, now: int)
    requires input.online && input.params.workspaceId in s.workspaces
    requires ValidNewEvent(Params(input, s.workspaces[input.params.workspaceId]), now)
    ensures var ws := s.workspaces[input.params.workspaceId];
      var ev := FreshEvent(Params(input, ws), s.db.nextId, now);
      Create(s, input, now) == Provision(Roster.WithOrganizer(s, ev, now), input, ws, ev.(participantCount := 1), now)
  {
    hide Provision, ValidNewEvent, FreshEvent, RegisterOrganizer, Create;
    CreateProvisions(s, input, now);
  }

  lemma Accepts(s: State, s': State, r: Result<nat, Error>, input: CreateInput, now: int)
    requires Roster.Inv(s) && JobShapes.Inv(s.db) && Create(s, input, now) == (s', r)
    requires Refusal(s, input, now).None?
    ensures input.params.workspaceId in s.workspaces && Added(s, s', input, now, s.db.nextId)
    ensures GetEvent(s'.db.events, s.db.nextId).Some?
    ensures AsAsked(s, input, now, GetEvent(s'.db.events, s.db.nextId).value)
    ensures Provisioned(s, s', r, input, now, s.db.nextId, GetEvent(s'.db.events, s.db.nextId).value)
  {
    hide *;
    FreshIsAsked(s, input, now);
    var ws := s.workspaces[input.params.workspaceId];
    var ev := FreshEvent(Params(input, ws), s.db.nextId, now);
    IsProvisioned(s, input, now);
    OrganizerStored(s, ev, input, now);
    AcceptedOutcome(s, Roster.WithOrganizer(s, ev, now), s', r, input, ws, ev.(participantCount := 1), now);
  }

  lemma AcceptedOutcome(s: State, s1: State, s': State, r: Result<nat, Error>, input: CreateInput, ws: Settings, ev: Event, now: int)
    requires JobShapes.Inv(s.db) && Refusal(s, input, now).None? && ws == s.workspaces[input.params.workspaceId]
    requires ev.id == s.db.nextId && OpenWith(ev, ChannelRef(None, "", false)) && AsAsked(s, input, now, ev)
    requires Added(s, s1, input, now, ev.id) && GetEvent(s1.db.events, ev.id) == Some(ev)
    requires s1.chat == s.chat && s1.db.jobs == s.db.jobs && s1.db.nextId >= s.db.nextId
    requires Provision(s1, input, ws, ev, now) == (s', r)
    ensures Added(s, s', input, now, ev.id)
    ensures AsAsked(s, input, now, GetEvent(s'.db.events, ev.id).value)
    ensures Provisioned(s, s', r, input, now, ev.id, GetEvent(s'.db.events, ev.id).value)
  {
    JobShapes.SameJobsKeepInv(s.db, s1.db);
    ProvisionOutcome(s1, s', r, input, ws, ev, now);
    var stored := GetEvent(s'.db.events, ev.id).value;
    AddedThenRewrote(s, s1, s', input, now, ev.id, stored);
    SameBeforehand(s, s1, s', r, input, now, ev.id, stored);
  }

  /** Storing the event and its organizer changes nothing provisioning looks at. */
  lemma SameBeforehand(s: State, s1: State, s': State, r: Result<nat, Error>, input: CreateInput, now: int, id: nat, stored: Event)
    requires input.params.workspaceId in s.workspaces && s1.workspaces == s.workspaces
    requires s1.chat == s.chat && s1.db.jobs == s.db.jobs
    requires AsAsked(s1, input, now, stored) && Provisioned(s1, s', r, input, now, id, stored)
    ensures AsAsked(s, input, now, stored) && Provisioned(s, s', r, input, now, id, stored)
  {
  }
}
