/** Sequential runs of the whole manager: use cases, clock ticks and worker turns, one at a
    time. A worker may crash after claiming a job, or after its handler returned and before
    the result is written. */
module Runs {
  import opened Common
  import opened Jobs
  import opened Sorting
  import opened Participations
  import opened Events
  import opened Manager
  import Peeks
  import Roster

  datatype Op =
    | Tick(to: int)
    | DoCreate(input: CreateInput)
    | DoUpdate(eventId: nat, update: EventUpdate, actor: Actor)
    | DoClose(eventId: nat, reason: EndReason, actor: Actor)
    | DoApply(eventId: nat, user: string, action: Action)
    | DoLeave(eventId: nat, user: string)
    | DoRemove(eventId: nat, user: string, online: bool)
    | DoJob
    | CrashAfterClaim
    | CrashBeforeWrite

  /** The state and the clock, and two pieces of history: the events whose Create reported
      success, and the peekers whose expiry the promotion of somebody else canceled. */
  datatype System = System(s: State, now: int, lease: int, created: set<nat>, stranded: set<nat>)

  ghost function Step(y: System, op: Op): System {
    match op
    case Tick(to) => y.(now := to)
    case DoCreate(input) =>
      var (s, r) := Create(y.s, input, y.now);
      y.(s := s, created := if r.Ok? then y.created + {r.value} else y.created)
    case DoUpdate(eventId, u, actor) => y.(s := Update(y.s, eventId, u, actor, y.now).0)
    case DoClose(eventId, reason, actor) => y.(s := Close(y.s, eventId, reason, actor, y.now).0)
    case DoApply(eventId, user, action) =>
      var (s, r) := Apply(y.s, eventId, user, action, y.now);
      y.(s := s, stranded := if r.Ok? then Peeks.StrandedAfter(y.stranded, s.db.parts, eventId, user, r.value) else y.stranded)
    case DoLeave(eventId, user) => y.(s := Leave(y.s, eventId, user, y.now).0)
    case DoRemove(eventId, user, online) => y.(s := Remove(y.s, eventId, user, online, y.now).0)
    case DoJob => y.(s := RunJob(y.s, y.lease, y.now))
    case CrashAfterClaim => y.(s := ClaimJob(y.s, y.lease, y.now).0)
    case CrashBeforeWrite => y.(s := HandleUnwritten(y.s, y.lease, y.now))
  }

  /** A worker turn whose result is never written. */
  function HandleUnwritten(s: State, lease: int, now: int): State {
    match ClaimJob(s, lease, now)
    case (s, None) => s
    case (s, Some(job)) => if job.attempts > job.maxAttempts then s else Handle(s, job, now).0
  }

  /** Time does not run backwards, nobody acts as the bot, and people close events only by
      ending or canceling them. */
  predicate Allowed(y: System, op: Op) {
    match op
    case Tick(to) => y.now <= to
    case DoCreate(input) => input.params.organizer != y.s.chat.bot
    case DoClose(_, reason, _) => reason in {Manual, CanceledByHand}
    case DoApply(_, user, _) => user != y.s.chat.bot
    case _ => true
  }

  predicate CrashFree(op: Op) {
    !op.CrashAfterClaim? && !op.CrashBeforeWrite?
  }

  predicate Initial(y: System) {
    && y.s.db.events == [] && y.s.db.parts == [] && y.s.db.jobs == [] && y.s.db.logs == []
    && y.s.chat.channels == map[] && y.created == {} && y.stranded == {} && y.lease > 0 && y.now > ZERO_TIME
  }

  /** A run: the states it passes through and the operations between them. */
  ghost predicate Run(ys: seq<System>, ops: seq<Op>) {
    && |ys| == |ops| + 1
    && Initial(ys[0])
    && forall i :: 0 <= i < |ops| ==> Stepped(ys, ops, i)
  }

  ghost predicate Stepped(ys: seq<System>, ops: seq<Op>, i: nat)
    requires |ys| == |ops| + 1 && i < |ops|
  {
    Allowed(ys[i], ops[i]) && ys[i + 1] == Step(ys[i], ops[i])
  }

  predicate NoCrash(ops: seq<Op>) {
    forall i :: 0 <= i < |ops| ==> CrashFree(ops[i])
  }

  // ----- the roster in every reachable state

  lemma StepKeepsRoster(y: System, op: Op)
    requires Roster.Inv(y.s) && Allowed(y, op)
    ensures Roster.Inv(Step(y, op).s)
  {
    match op {
      case DoCreate(input) => Roster.CreateKeepsInv(y.s, input, y.now);
      case DoUpdate(eventId, u, actor) => Roster.UpdateKeepsInv(y.s, eventId, u, actor, y.now);
      case DoClose(eventId, reason, actor) => Roster.CloseKeepsInv(y.s, eventId, reason, actor, y.now);
      case DoApply(eventId, user, action) => Roster.ApplyKeepsInv(y.s, eventId, user, action, y.now);
      case DoLeave(eventId, user) => Roster.LeaveKeepsInv(y.s, eventId, user, y.now);
      case DoRemove(eventId, user, online) => Roster.RemoveKeepsInv(y.s, eventId, user, online, y.now);
      case DoJob => JobKeepsRoster(y.s, y.lease, y.now);
      case CrashAfterClaim => Roster.JobsKeepInv(y.s, ClaimJob(y.s, y.lease, y.now).0.db.jobs);
      case CrashBeforeWrite => UnwrittenKeepsRoster(y.s, y.lease, y.now);
      case Tick(_) =>
    }
  }

  lemma JobKeepsRoster(s: State, lease: int, now: int)
    requires Roster.Inv(s)
    ensures Roster.Inv(RunJob(s, lease, now))
  {
    var (s', job) := ClaimJob(s, lease, now);
    Roster.JobsKeepInv(s, s'.db.jobs);
    if job.Some? {
      Roster.RunClaimedKeepsInv(s', job.value, now);
    }
  }

  lemma UnwrittenKeepsRoster(s: State, lease: int, now: int)
    requires Roster.Inv(s)
    ensures Roster.Inv(HandleUnwritten(s, lease, now))
  {
    var (s', job) := ClaimJob(s, lease, now);
    Roster.JobsKeepInv(s, s'.db.jobs);
    if job.Some? {
      Roster.HandleKeepsInv(s', job.value, now);
    }
  }

  lemma {:induction false} RunKeepsRoster(ys: seq<System>, ops: seq<Op>, i: nat)
    requires Run(ys, ops) && i < |ys|
    ensures Roster.Inv(ys[i].s)
  {
    if i > 0 {
      RunKeepsRoster(ys, ops, i - 1);
      assert Stepped(ys, ops, i - 1);
      StepKeepsRoster(ys[i - 1], ops[i - 1]);
    }
  }

  /** Conservation: in every state of every run, crashes included, the counter of each event
      is the number of its active participants, and no user has two records in an event. */
  lemma CountIsConserved(ys: seq<System>, ops: seq<Op>, i: nat, id: nat)
    requires Run(ys, ops) && i < |ys| && GetEvent(ys[i].s.db.events, id).Some?
    ensures GetEvent(ys[i].s.db.events, id).value.participantCount == CountActive(ys[i].s.db.parts, id, Participant)
    ensures var parts := ys[i].s.db.parts;
            forall a, b :: 0 <= a < b < |parts| ==>
              !(parts[a].eventId == parts[b].eventId && parts[a].userId == parts[b].userId)
  {
    RunKeepsRoster(ys, ops, i);
    assert Roster.EventOk(GetEvent(ys[i].s.db.events, id).value, ys[i].s);
  }

  /** Membership: the channel of a provisioned event holds the bot and exactly the users
      with an active participation, each once. */
  lemma MembersAreActive(ys: seq<System>, ops: seq<Op>, i: nat, id: nat)
    requires Run(ys, ops) && i < |ys| && GetEvent(ys[i].s.db.events, id).Some?
    requires GetEvent(ys[i].s.db.events, id).value.channel.id.Some?
    ensures var c := GetEvent(ys[i].s.db.events, id).value.channel.id.value;
            var s := ys[i].s;
            && c in s.chat.channels
            && Distinct(s.chat.channels[c].members)
            && forall u :: u in s.chat.channels[c].members <==> u == s.chat.bot || Roster.IsActiveIn(s.db.parts, id, u)
  {
    RunKeepsRoster(ys, ops, i);
    assert Roster.EventOk(GetEvent(ys[i].s.db.events, id).value, ys[i].s);
  }
}
