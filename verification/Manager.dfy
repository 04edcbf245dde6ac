/** The use cases of the manager as functions on its whole state (usecase/event.go,
    usecase/participation.go, usecase/reminder.go, scheduler/handler.go) together with the
    chat provider they drive (provider/fake/provider_server.go). One use case happens at
    one instant. `Services` implements them step by step. */
module Manager {
  import opened Common
  import opened Jobs
  import opened Reminders
  import opened Participations
  import opened Events

  datatype Error =
    | NotFound
    | Forbidden
    | EventClosed
    | OrganizerCannotLeave
    | Validation
    | ProviderUnavailable
    | NameTaken
    | AlreadyExists
    | PermanentError

  datatype Settings = Settings(peekDuration: int, autoEndGrace: int, zone: int, defaultPolicy: Policy)

  datatype ReminderLog = ReminderLog(id: nat, eventId: nat, sequence: int, scheduledFor: int, sentAt: int)

  datatype Db = Db(
    nextId: nat,
    events: seq<Event>,
    parts: seq<Participation>,
    jobs: seq<Job>,
    logs: seq<ReminderLog>)

  datatype Channel = Channel(name: string, members: seq<string>, archived: bool)

  /** The provider: its channels by number, and the number used last. */
  datatype Chat = Chat(bot: string, channels: map<nat, Channel>, lastChannel: nat)

  datatype State = State(db: Db, chat: Chat, workspaces: map<nat, Settings>)

  // ----- the provider

  predicate NameInUse(chat: Chat, name: string) {
    exists c :: c in chat.channels && chat.channels[c].name == name && !chat.channels[c].archived
  }

  function CreateChannel(chat: Chat, name: string, members: seq<string>): (Chat, Result<nat, Error>) {
    if NameInUse(chat, name) then (chat, Err(NameTaken))
    else
      var c := chat.lastChannel + 1;
      (chat.(lastChannel := c, channels := chat.channels[c := Channel(name, [chat.bot] + members, false)]), Ok(c))
  }

  function WithMember(members: seq<string>, user: string): seq<string> {
    if user in members then members else members + [user]
  }

  /** Drops the first occurrence, as the provider does. */
  function WithoutMember(members: seq<string>, user: string): seq<string> {
    if members == [] then []
    else if members[0] == user then members[1..]
    else [members[0]] + WithoutMember(members[1..], user)
  }

  function AddMember(chat: Chat, c: nat, user: string): Result<Chat, Error> {
    if c !in chat.channels then Err(NotFound)
    else
      var ch := chat.channels[c];
      Ok(chat.(channels := chat.channels[c := ch.(members := WithMember(ch.members, user))]))
  }

  function RemoveMember(chat: Chat, c: nat, user: string): Result<Chat, Error> {
    if c !in chat.channels then Err(NotFound)
    else
      var ch := chat.channels[c];
      Ok(chat.(channels := chat.channels[c := ch.(members := WithoutMember(ch.members, user))]))
  }

  function ArchiveChannelIn(chat: Chat, c: nat): Result<Chat, Error> {
    if c !in chat.channels then Err(NotFound)
    else Ok(chat.(channels := chat.channels[c := chat.channels[c].(archived := true)]))
  }

  // ----- shared steps

  /** A duplicate key means the job is already there, which counts as success. */
  function EnqueueJob(db: Db, job: Job, now: int): Db {
    if Duplicate(db.jobs, job) then db
    else db.(jobs := Enqueue(db.jobs, job, db.nextId, now), nextId := db.nextId + 1)
  }

  function CancelJobs(db: Db, eventId: nat, kinds: seq<Kind>, now: int): Db {
    db.(jobs := CancelByEvent(db.jobs, eventId, kinds, now))
  }

  function PutEvent(db: Db, eventId: nat, write: EventWrite): Db {
    db.(events := WriteEvent(db.events, eventId, write))
  }

  function AddCount(db: Db, eventId: nat, delta: int, now: int): Db {
    PutEvent(db, eventId, CountBy(delta, now))
  }

  function UpsertPart(db: Db, entry: Entry, now: int): (Db, Option<Participation>, Participation) {
    var (parts, before, after) := Upsert(db.parts, entry, db.nextId, now);
    (db.(parts := parts, nextId := if before.None? then db.nextId + 1 else db.nextId), before, after)
  }

  // ----- reminders

  function HighestSequence(jobs: seq<Job>, eventId: nat): (h: int)
    ensures h >= 0
    ensures forall i :: 0 <= i < |jobs| && jobs[i].eventId == eventId && jobs[i].kind == Reminder ==>
              jobs[i].payload.sequence <= h
  {
    if jobs == [] then 0
    else
      var last := |jobs| - 1;
      var h := HighestSequence(jobs[..last], eventId);
      if jobs[last].eventId == eventId && jobs[last].kind == Reminder then Max(h, jobs[last].payload.sequence) else h
  }

  predicate SentAt(logs: seq<ReminderLog>, eventId: nat, at: int) {
    exists i :: 0 <= i < |logs| && logs[i].eventId == eventId && logs[i].scheduledFor == at
  }

  predicate SentSequence(logs: seq<ReminderLog>, eventId: nat, sequence: int) {
    exists i :: 0 <= i < |logs| && logs[i].eventId == eventId && logs[i].sequence == sequence
  }

  /** One job for each time that has not been sent, numbered from `sequence`. */
  function EnqueueReminders(db: Db, eventId: nat, sequence: int, times: seq<int>, now: int): Db
    decreases |times|
  {
    if times == [] then db
    else if SentAt(db.logs, eventId, times[0]) then EnqueueReminders(db, eventId, sequence, times[1..], now)
    else
      EnqueueReminders(EnqueueJob(db, NewReminderJob(eventId, sequence, times[0]), now),
                       eventId, sequence + 1, times[1..], now)
  }

  /** The policy as `Schedule` sees it: it validates again before computing. */
  ghost function Times(ev: Event, zone: int, now: int): Result<seq<int>, ScheduleError> {
    if Valid(ev.policy) then Schedule(ev.policy, now, ev.startsAt, zone) else Err(InvalidPolicy)
  }

  ghost function ScheduleReminders(db: Db, ws: Settings, ev: Event, now: int): (Db, Result<(), Error>) {
    var db := CancelJobs(db, ev.id, [Reminder], now);
    if !ev.IsOpen() then (db, Ok(()))
    else
      match Times(ev, ws.zone, now)
      case Err(_) => (db, Err(Validation))
      case Ok(times) => (EnqueueReminders(db, ev.id, HighestSequence(db.jobs, ev.id) + 1, times, now), Ok(()))
  }

  /** Send: post the reminder and log it, unless it is too late or already sent. */
  function Send(s: State, eventId: nat, sequence: int, scheduledFor: int, now: int): (State, Result<bool, Error>) {
    match GetEvent(s.db.events, eventId)
    case None => (s, Err(NotFound))
    case Some(ev) =>
      if !ev.IsOpen() || ev.startsAt <= now || SentSequence(s.db.logs, eventId, sequence) then (s, Ok(false))
      else if ev.workspaceId !in s.workspaces then (s, Err(NotFound))
      else
        var at := if scheduledFor == ZERO_TIME then now else scheduledFor;
        var log := ReminderLog(s.db.nextId, eventId, sequence, at, now);
        (s.(db := s.db.(logs := s.db.logs + [log], nextId := s.db.nextId + 1)), Ok(true))
  }

  // ----- the event lifecycle

  datatype Actor = Actor(userId: string, console: bool)

  predicate MayManage(ev: Event, actor: Actor) {
    actor.console || actor.userId == ev.organizer
  }

  /** The channel name and its two numbered variants, tried in turn; `posts` says
      whether the announcements can be posted. */
  datatype CreateInput = CreateInput(
    params: NewEventParams,
    policyGiven: bool,
    online: bool,
    name: string,
    name2: string,
    name3: string,
    posts: bool)

  function TryNames(chat: Chat, names: seq<string>, members: seq<string>): (Chat, Result<(nat, string), Error>)
    decreases |names|
  {
    if names == [] then (chat, Err(NameTaken))
    else
      match CreateChannel(chat, names[0], members)
      case (chat', Ok(c)) => (chat', Ok((c, names[0])))
      case (_, Err(_)) => TryNames(chat, names[1..], members)
  }

  function RegisterOrganizer(db: Db, ev: Event, now: int): Db {
    var entry := Entry(ev.id, ev.workspaceId, ev.organizer, Participant, None);
    AddCount(UpsertPart(db, entry, now).0, ev.id, 1, now)
  }

  /** The event is canceled; a channel that was already made is left to the archive job. */
  function AbortProvision(db: Db, ev: Event, now: int): Db {
    if !ev.IsOpen() then db
    else
      var db := PutEvent(db, ev.id, Overwrite(Closed(ev, CanceledEvent, ProvisionFailed, now)));
      if ev.channel.id.None? then db else EnqueueJob(db, NewArchiveJob(ev.id, now), now)
  }

  /** The policy `Create` uses: the given one, or the default of the workspace. */
  function Params(input: CreateInput, ws: Settings): NewEventParams {
    if input.policyGiven then input.params else input.params.(policy := ws.defaultPolicy)
  }

  ghost function Create(s: State, input: CreateInput, now: int): (State, Result<nat, Error>) {
    if !input.online then (s, Err(ProviderUnavailable))
    else if input.params.workspaceId !in s.workspaces then (s, Err(NotFound))
    else
      var ws := s.workspaces[input.params.workspaceId];
      if !ValidNewEvent(Params(input, ws), now) then (s, Err(Validation))
      else
        var ev := FreshEvent(Params(input, ws), s.db.nextId, now);
        Provision(s.(db := RegisterOrganizer(s.db.(events := s.db.events + [ev], nextId := s.db.nextId + 1), ev, now)),
                  input, ws, ev.(participantCount := 1), now)
  }

  /** The rest of `Create`, once the event and its organizer are stored. */
  ghost function Provision(s: State, input: CreateInput, ws: Settings, ev: Event, now: int)
    : (State, Result<nat, Error>)
  {
    match TryNames(s.chat, [input.name, input.name2, input.name3], [ev.organizer])
    case (_, Err(e)) => (s.(db := AbortProvision(s.db, ev, now)), Err(e))
    case (chat, Ok((c, name))) =>
      var ref := ChannelRef(Some(c), name, false);
      var ev := ev.(channel := ref);
      var s := s.(chat := chat, db := PutEvent(s.db, ev.id, SetChannel(ref, now)));
      if !input.posts then (s.(db := AbortProvision(s.db, ev, now)), Err(ProviderUnavailable))
      else
        match ScheduleReminders(s.db, ws, ev, now)
        case (db, Err(e)) => (s.(db := db), Err(e))
        case (db, Ok(_)) =>
          (s.(db := EnqueueJob(db, NewAutoEndJob(ev.id, ev.AutoEndAt(ws.autoEndGrace)), now)), Ok(ev.id))
  }

  /** Once the input is accepted, the rest is to provision the stored event. */
  lemma CreateProvisions(s: State, input: CreateInput, now: int)
    requires input.online && input.params.workspaceId in s.workspaces
    requires ValidNewEvent(Params(input, s.workspaces[input.params.workspaceId]), now)
    ensures var ws := s.workspaces[input.params.workspaceId];
      var ev := FreshEvent(Params(input, ws), s.db.nextId, now);
      var stored := s.db.(events := s.db.events + [ev], nextId := s.db.nextId + 1);
      Create(s, input, now) == Provision(s.(db := RegisterOrganizer(stored, ev, now)), input, ws, ev.(participantCount := 1), now)
  {
  }

  ghost function Update(s: State, eventId: nat, u: EventUpdate, actor: Actor, now: int): (State, Result<(), Error>) {
    match GetEvent(s.db.events, eventId)
    case None => (s, Err(NotFound))
    case Some(ev) =>
      if !MayManage(ev, actor) then (s, Err(Forbidden))
      else if ev.workspaceId !in s.workspaces then (s, Err(NotFound))
      else if !ev.IsOpen() then (s, Err(EventClosed))
      else if !ValidEdit(ev, u, now) then (s, Err(Validation))
      else
        var next := Edited(ev, u, now);
        var (db, r) := ScheduleReminders(PutEvent(s.db, eventId, Overwrite(next)), s.workspaces[ev.workspaceId], next, now);
        (s.(db := db), r)
  }

  const CLOSING_KINDS: seq<Kind> := [Reminder, AutoEnd, PeekExpire]

  function CloseStatus(reason: EndReason): EventStatus {
    if reason == CanceledByHand then CanceledEvent else Ended
  }

  function Close(s: State, eventId: nat, reason: EndReason, actor: Actor, now: int): (State, Result<(), Error>) {
    match GetEvent(s.db.events, eventId)
    case None => (s, Err(NotFound))
    case Some(ev) =>
      if !MayManage(ev, actor) then (s, Err(Forbidden))
      else if !ev.IsOpen() then (s, Ok(()))
      else
        var db := PutEvent(s.db, eventId, Overwrite(Closed(ev, CloseStatus(reason), reason, now)));
        if ev.workspaceId !in s.workspaces then (s.(db := db), Err(NotFound))
        else
          var db := CancelJobs(db, eventId, CLOSING_KINDS, now);
          (s.(db := if ev.channel.id.None? then db else EnqueueJob(db, NewArchiveJob(eventId, now), now)), Ok(()))
  }

  function ArchiveChannel(s: State, eventId: nat, now: int): (State, Result<(), Error>) {
    match GetEvent(s.db.events, eventId)
    case None => (s, Err(NotFound))
    case Some(ev) =>
      if ev.channel.id.None? || ev.channel.archived then (s, Ok(()))
      else if ev.workspaceId !in s.workspaces then (s, Err(NotFound))
      else
        var chat := match ArchiveChannelIn(s.chat, ev.channel.id.value)
                    case Ok(chat) => chat
                    case Err(_) => s.chat;
        (s.(chat := chat, db := PutEvent(s.db, eventId, SetChannel(ev.channel.(archived := true), now))), Ok(()))
  }

  // ----- participation

  /** A lost channel closes the event; the caller still gets the error. */
  function ChannelLostError(s: State, ev: Event, now: int): State {
    Close(s, ev.id, ChannelLost, Actor("", true), now).0
  }

  function OpenEvent(s: State, eventId: nat): Result<(Event, Settings), Error> {
    match GetEvent(s.db.events, eventId)
    case None => Err(NotFound)
    case Some(ev) =>
      if !ev.IsOpen() then Err(EventClosed)
      else if ev.workspaceId !in s.workspaces then Err(NotFound)
      else Ok((ev, s.workspaces[ev.workspaceId]))
  }

  function JoinChannel(s: State, ev: Event, user: string, now: int): (State, Result<(), Error>) {
    match ev.channel.id
    case None => (s, Ok(()))
    case Some(c) =>
      match AddMember(s.chat, c, user)
      case Ok(chat) => (s.(chat := chat), Ok(()))
      case Err(e) => (ChannelLostError(s, ev, now), Err(e))
  }

  function LeaveChannel(s: State, ev: Event, user: string, now: int): (State, Result<(), Error>) {
    match ev.channel.id
    case None => (s, Ok(()))
    case Some(c) =>
      match RemoveMember(s.chat, c, user)
      case Ok(chat) => (s.(chat := chat), Ok(()))
      case Err(e) => (ChannelLostError(s, ev, now), Err(e))
  }

  /** The counter, the pending expiry jobs and the new expiry job, in that order. */
  function AfterTransition(db: Db, ev: Event, part: Participation, t: Transition, now: int): Db {
    var counted := if t.role == Participant then AddCount(db, ev.id, 1, now) else db;
    var canceled := if t.cancelPeekJob then CancelJobs(counted, ev.id, [PeekExpire], now) else counted;
    if t.role == Peeker && part.expiresAt.Some? then
      EnqueueJob(canceled, NewPeekExpireJob(ev.id, part.id, part.peekCount, part.expiresAt.value), now)
    else canceled
  }

  /** The effects of a press whose transition, decided on the record read first, is `t`. */
  function Press(s: State, ev: Event, ws: Settings, user: string, action: Action, t: Transition, now: int)
    : (State, Result<Transition, Error>)
  {
    var expiresAt := if t.role == Peeker then Some(now + ws.peekDuration) else None;
    var (db, before, after) := UpsertPart(s.db, Entry(ev.id, ev.workspaceId, user, t.role, expiresAt), now);
    var s := s.(db := db);
    var settled := DecideTransition(before, action);
    if settled.change != t.change then (s, Ok(settled))
    else
      match (if t.addToChannel then JoinChannel(s, ev, user, now) else (s, Ok(())))
      case (s, Err(e)) => (s, Err(e))
      case (s, Ok(_)) => (s.(db := AfterTransition(s.db, ev, after, t, now)), Ok(t))
  }

  function Apply(s: State, eventId: nat, user: string, action: Action, now: int): (State, Result<Transition, Error>) {
    match OpenEvent(s, eventId)
    case Err(e) => (s, Err(e))
    case Ok((ev, ws)) =>
      var t := DecideTransition(At(s.db.parts, FindUser(s.db.parts, eventId, user)), action);
      if !t.addToChannel && !t.cancelPeekJob then (s, Ok(t)) else Press(s, ev, ws, user, action, t, now)
  }

  function Detach(s: State, ev: Event, part: Participation, status: Standing, now: int): (State, Result<(), Error>) {
    match LeaveChannel(s, ev, part.userId, now)
    case (s, Err(e)) => (s, Err(e))
    case (s, Ok(_)) =>
      if FindId(s.db.parts, part.id).None? then (s, Err(NotFound))
      else
        var db := s.db.(parts := SetStatus(s.db.parts, part.id, status, now));
        (s.(db := if part.role == Participant then AddCount(db, ev.id, -1, now) else db), Ok(()))
  }

  function Leave(s: State, eventId: nat, user: string, now: int): (State, Result<(), Error>) {
    match OpenEvent(s, eventId)
    case Err(e) => (s, Err(e))
    case Ok((ev, _)) =>
      if user == ev.organizer then (s, Err(OrganizerCannotLeave))
      else
        match At(s.db.parts, FindUser(s.db.parts, eventId, user))
        case None => (s, Err(NotFound))
        case Some(part) => if part.IsActive() then Detach(s, ev, part, Left, now) else (s, Err(NotFound))
  }

  function Remove(s: State, eventId: nat, user: string, online: bool, now: int): (State, Result<(), Error>) {
    if !online then (s, Err(ProviderUnavailable))
    else
      match OpenEvent(s, eventId)
      case Err(e) => (s, Err(e))
      case Ok((ev, _)) =>
        match At(s.db.parts, FindUser(s.db.parts, eventId, user))
        case None => (s, Err(NotFound))
        case Some(part) => if part.IsActive() then Detach(s, ev, part, Removed, now) else (s, Ok(()))
  }

  /** ExpirePeek: the record as found (None if it is gone) and whether it was expired. */
  function ExpirePeek(s: State, id: nat, now: int): (State, Result<(Option<Participation>, bool), Error>) {
    match At(s.db.parts, FindId(s.db.parts, id))
    case None => (s, Ok((None, false)))
    case Some(part) =>
      if part.role != Peeker || !part.IsActive() || !part.PeekExpired(now) then (s, Ok((Some(part), false)))
      else
        match GetEvent(s.db.events, part.eventId)
        case None => (s, Err(NotFound))
        case Some(ev) =>
          if ev.workspaceId !in s.workspaces then (s, Err(NotFound))
          else
            match Detach(s, ev, part, Expired, now)
            case (s, Err(e)) => (s, Err(e))
            case (s, Ok(_)) => (s, Ok((Some(part.(status := Expired)), true)))
  }

  // ----- job handlers

  datatype Handled = Finished | WasRescheduled | HandlerError(error: Error)

  /** A job whose subject is gone is done. */
  function SkipMissing<T>(r: Result<T, Error>): Handled {
    match r
    case Ok(_) => Finished
    case Err(e) => if e == NotFound then Finished else HandlerError(e)
  }

  function RescheduleJob(s: State, job: Job, runAt: int, now: int): (State, Handled) {
    if Find(s.db.jobs, job.id).None? then (s, HandlerError(NotFound))
    else (s.(db := s.db.(jobs := WriteBack(s.db.jobs, job.id, Reschedule(runAt), now))), WasRescheduled)
  }

  function HandlePeekExpire(s: State, job: Job, now: int): (State, Handled) {
    match ExpirePeek(s, job.payload.participationId, now)
    case (s, Err(e)) => (s, SkipMissing<()>(Err(e)))
    case (s, Ok((part, expired))) =>
      if expired || part.None? || part.value.role != Peeker || !part.value.IsActive() || part.value.expiresAt.None?
      then (s, Finished)
      else RescheduleJob(s, job, part.value.expiresAt.value, now)
  }

  function HandleAutoEnd(s: State, job: Job, now: int): (State, Handled) {
    match GetEvent(s.db.events, job.payload.eventId)
    case None => (s, Finished)
    case Some(ev) =>
      if !ev.IsOpen() || ev.workspaceId !in s.workspaces then (s, Finished)
      else
        var at := ev.AutoEndAt(s.workspaces[ev.workspaceId].autoEndGrace);
        if at > now then RescheduleJob(s, job, at, now)
        else
          var (s, r) := Close(s, ev.id, Auto, Actor("", true), now);
          (s, SkipMissing(r))
  }

  function Handle(s: State, job: Job, now: int): (State, Handled) {
    match job.kind
    case Reminder =>
      var (s, r) := Send(s, job.payload.eventId, job.payload.sequence, job.payload.scheduledFor, now);
      (s, SkipMissing(r))
    case PeekExpire => HandlePeekExpire(s, job, now)
    case AutoEnd => HandleAutoEnd(s, job, now)
    case Archive =>
      var (s, r) := ArchiveChannel(s, job.payload.eventId, now);
      (s, SkipMissing(r))
    case Unknown(_) => (s, HandlerError(PermanentError))
  }

  // ----- one job from claim to write-back, with nothing in between

  function WriteJob(s: State, id: nat, write: Jobs.Write, now: int): State {
    s.(db := s.db.(jobs := WriteBack(s.db.jobs, id, write, now)))
  }

  function ClaimJob(s: State, lease: int, now: int): (State, Option<Job>) {
    var (jobs, job) := Claim(s.db.jobs, now, lease);
    (s.(db := s.db.(jobs := jobs)), job)
  }

  /** A permanent error or a refused input cannot be helped by trying again. */
  function ErrorWrite(e: Error, job: Job, now: int): Jobs.Write {
    if e == PermanentError || e == Validation then Fail("permanent")
    else Retry(now + BackoffSpec(job.attempts), "retry")
  }

  function WriteHandled(s: State, job: Job, handled: Handled, now: int): State {
    match handled
    case Finished => WriteJob(s, job.id, Complete, now)
    case WasRescheduled => s
    case HandlerError(e) => WriteJob(s, job.id, ErrorWrite(e, job, now), now)
  }

  function RunClaimed(s: State, job: Job, now: int): State {
    if job.attempts > job.maxAttempts then WriteJob(s, job.id, Fail("max attempts exceeded"), now)
    else
      var (s, handled) := Handle(s, job, now);
      WriteHandled(s, job, handled, now)
  }

  function RunJob(s: State, lease: int, now: int): State {
    match ClaimJob(s, lease, now)
    case (s, None) => s
    case (s, Some(job)) => RunClaimed(s, job, now)
  }
}
