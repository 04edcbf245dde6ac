/** Concurrent button presses (Apply in usecase/participation.go): any number of presses on
    one open event, interleaved between their repository and provider calls. The steps are
    those of `Manager.Apply`, cut where the source lets go of the store. */
module Presses {
  import opened Common
  import opened Jobs
  import opened Participations
  import opened Events
  import opened Manager
  import Roster

  /** Where a press stands. `Entered` has settled on its own transition and owes the side
      effects; `Answered` is finished, `Refused` was turned away by the provider. */
  datatype Phase =
    | Decided(t: Transition)
    | Entered(t: Transition, part: Participation)
    | Admitted(t: Transition, part: Participation)
    | Counted(t: Transition, part: Participation)
    | Cleared(t: Transition, part: Participation)
    | Answered
    | Refused

  datatype Press = Press(user: string, action: Action, phase: Phase)

  /** History: how often each side effect was performed for a user. */
  datatype Effects = Effects(admitted: nat, counted: nat, cleared: nat, planned: nat)

  const NOTHING := Effects(0, 0, 0, 0)

  /** `lost` counts the presses that made somebody a participant and were then answered or
      refused without reaching the counter. */
  datatype World = World(
    db: Db,
    chat: Chat,
    now: int,
    presses: map<nat, Press>,
    effects: map<string, Effects>,
    lost: nat)

  datatype Step =
    | Read(x: nat, user: string, action: Action)
    | Enter(x: nat)
    | Admit(x: nat, ok: bool)
    | Tally(x: nat)
    | Clear(x: nat)
    | Plan(x: nat)
    | Tick(to: int)

  /** What all presses of a burst read first: the open event and the settings. */
  datatype Site = Site(ev: Event, ws: Settings)

  predicate HasEffects(t: Transition) {
    t.addToChannel || t.cancelPeekJob
  }

  function RecordOf(db: Db, e: nat, user: string): Option<Participation> {
    At(db.parts, FindUser(db.parts, e, user))
  }

  function EffectsOf(w: World, user: string): Effects {
    if user in w.effects then w.effects[user] else NOTHING
  }

  function Moved(w: World, x: nat, phase: Phase): World
    requires x in w.presses
  {
    w.(presses := w.presses[x := w.presses[x].(phase := phase)])
  }

  function Did(w: World, x: nat, phase: Phase, done: Effects): World
    requires x in w.presses
  {
    Moved(w.(effects := w.effects[w.presses[x].user := done]), x, phase)
  }

  predicate Enabled(w: World, step: Step) {
    match step
    case Read(x, _, _) => x !in w.presses
    case Enter(x) => x in w.presses && w.presses[x].phase.Decided?
    case Admit(x, ok) => x in w.presses && w.presses[x].phase.Entered? && (w.presses[x].phase.t.addToChannel || ok)
    case Tally(x) => x in w.presses && w.presses[x].phase.Admitted?
    case Clear(x) => x in w.presses && w.presses[x].phase.Counted?
    case Plan(x) => x in w.presses && w.presses[x].phase.Cleared?
    case Tick(to) => w.now <= to
  }

  /** The atomic upsert, and the decision taken again on the record it found. */
  function AfterEnter(site: Site, w: World, x: nat): World
    requires x in w.presses && w.presses[x].phase.Decided?
  {
    var p := w.presses[x];
    var (db, before, after) := UpsertPart(w.db, Roster.EntryOf(site.ev, site.ws, p.user, p.phase.t, w.now), w.now);
    var settled := DecideTransition(before, p.action);
    if settled.change == p.phase.t.change then Moved(w.(db := db), x, Entered(p.phase.t, after))
    else
      Moved(w.(db := db, lost := w.lost + if settled.role == Participant && HasEffects(settled) then 1 else 0), x, Answered)
  }

  function AfterAdmit(site: Site, w: World, x: nat, ok: bool): World
    requires x in w.presses && w.presses[x].phase.Entered?
  {
    var p := w.presses[x];
    if !ok then Moved(w.(lost := w.lost + if p.phase.t.role == Participant then 1 else 0), x, Refused)
    else if !p.phase.t.addToChannel then Moved(w, x, Admitted(p.phase.t, p.phase.part))
    else
      var chat :=
        match site.ev.channel.id
        case None => w.chat
        case Some(c) => (match AddMember(w.chat, c, p.user) case Ok(chat) => chat case Err(_) => w.chat);
      var done := EffectsOf(w, p.user);
      Did(w.(chat := chat), x, Admitted(p.phase.t, p.phase.part), done.(admitted := done.admitted + 1))
  }

  function AfterTally(site: Site, w: World, x: nat): World
    requires x in w.presses && w.presses[x].phase.Admitted?
  {
    var p := w.presses[x];
    var next := Counted(p.phase.t, p.phase.part);
    var done := EffectsOf(w, p.user);
    if p.phase.t.role == Participant then
      Did(w.(db := AddCount(w.db, site.ev.id, 1, w.now)), x, next, done.(counted := done.counted + 1))
    else Moved(w, x, next)
  }

  function AfterClear(site: Site, w: World, x: nat): World
    requires x in w.presses && w.presses[x].phase.Counted?
  {
    var p := w.presses[x];
    var next := Cleared(p.phase.t, p.phase.part);
    var done := EffectsOf(w, p.user);
    if p.phase.t.cancelPeekJob then
      Did(w.(db := CancelJobs(w.db, site.ev.id, [PeekExpire], w.now)), x, next, done.(cleared := done.cleared + 1))
    else Moved(w, x, next)
  }

  function AfterPlan(site: Site, w: World, x: nat): World
    requires x in w.presses && w.presses[x].phase.Cleared?
  {
    var p := w.presses[x];
    var part := p.phase.part;
    var done := EffectsOf(w, p.user);
    if p.phase.t.role == Peeker && part.expiresAt.Some? then
      var job := NewPeekExpireJob(site.ev.id, part.id, part.peekCount, part.expiresAt.value);
      Did(w.(db := EnqueueJob(w.db, job, w.now)), x, Answered, done.(planned := done.planned + 1))
    else Moved(w, x, Answered)
  }

  function AfterRead(site: Site, w: World, x: nat, user: string, action: Action): World {
    var t := DecideTransition(RecordOf(w.db, site.ev.id, user), action);
    w.(presses := w.presses[x := Press(user, action, if HasEffects(t) then Decided(t) else Answered)])
  }

  function After(site: Site, w: World, step: Step): World
    requires Enabled(w, step)
  {
    match step
    case Read(x, user, action) => AfterRead(site, w, x, user, action)
    case Enter(x) => AfterEnter(site, w, x)
    case Admit(x, ok) => AfterAdmit(site, w, x, ok)
    case Tally(x) => AfterTally(site, w, x)
    case Clear(x) => AfterClear(site, w, x)
    case Plan(x) => AfterPlan(site, w, x)
    case Tick(to) => w.(now := to)
  }

  /** The counter as stored. */
  function Counter(site: Site, w: World): int {
    match GetEvent(w.db.events, site.ev.id)
    case None => 0
    case Some(ev) => ev.participantCount
  }

  function Present(site: Site, w: World): int {
    CountActive(w.db.parts, site.ev.id, Participant)
  }

  /** Before the burst the counter is right. */
  predicate Initial(site: Site, w: World) {
    && w.presses == map[] && w.effects == map[] && w.lost == 0
    && GetEvent(w.db.events, site.ev.id).Some? && Counter(site, w) == Present(site, w)
  }

  ghost predicate Run(site: Site, ws: seq<World>, steps: seq<Step>) {
    && |ws| == |steps| + 1
    && Initial(site, ws[0])
    && forall i :: 0 <= i < |steps| ==> Stepped(site, ws, steps, i)
  }

  ghost predicate Stepped(site: Site, ws: seq<World>, steps: seq<Step>, i: nat)
    requires |ws| == |steps| + 1 && i < |steps|
  {
    Enabled(ws[i], steps[i]) && ws[i + 1] == After(site, ws[i], steps[i])
  }

  // ----- the counter

  predicate OwesCount(phase: Phase) {
    (phase.Entered? || phase.Admitted?) && phase.t.role == Participant
  }

  ghost function InFlight(presses: map<nat, Press>): set<nat> {
    set x | x in presses && OwesCount(presses[x].phase)
  }

  /** A decision with effects is a new entry or a promotion. */
  predicate Effective(t: Transition, action: Action) {
    t == NewEntryTransition(action) || (action == Join && t == Transition(Promoted, Participant, false, true))
  }

  ghost predicate PhasesOk(presses: map<nat, Press>) {
    forall x :: x in presses && !presses[x].phase.Answered? && !presses[x].phase.Refused? ==>
      Effective(presses[x].phase.t, presses[x].action)
  }

  /** Every active participant is counted, on the way to the counter, or lost. */
  ghost predicate Accounted(site: Site, w: World) {
    && PhasesOk(w.presses)
    && GetEvent(w.db.events, site.ev.id).Some?
    && Counter(site, w) + |InFlight(w.presses)| + w.lost == Present(site, w)
  }

  lemma MoveInFlight(presses: map<nat, Press>, x: nat, press: Press)
    ensures |InFlight(presses[x := press])| ==
            |InFlight(presses)| + One(OwesCount(press.phase)) - One(x in presses && OwesCount(presses[x].phase))
  {
    var after := presses[x := press];
    if OwesCount(press.phase) {
      assert InFlight(after) == InFlight(presses) + {x};
    } else {
      assert InFlight(after) == InFlight(presses) - {x};
    }
  }

  /** An upsert changes one record, which is active afterwards; who was an active
      participant stays one, anybody else takes the role of the entry. */
  lemma UpsertCounts(db: Db, entry: Entry, now: int)
    ensures var (db', before, after) := UpsertPart(db, entry, now);
      var was := before.Some? && CountsAs(before.value, entry.eventId, Participant);
      && before == RecordOf(db, entry.eventId, entry.userId)
      && db'.events == db.events && db'.jobs == db.jobs
      && after.IsActive() && after.role == (if was then Participant else entry.role)
      && (after.role == Peeker ==> after.expiresAt == entry.expiresAt)
      && CountActive(db'.parts, entry.eventId, Participant) ==
         CountActive(db.parts, entry.eventId, Participant) + One(!was && entry.role == Participant)
  {
    match FindUser(db.parts, entry.eventId, entry.userId) {
      case None => CountAppend(db.parts, Created(entry, db.nextId, now), entry.eventId, Participant);
      case Some(i) => CountSet(db.parts, i, Renewed(db.parts[i], entry, now), entry.eventId, Participant);
    }
  }

  /** What entering does: the records gain a participant exactly when the press owes the
      counter or is lost. */
  lemma EnterMoves(site: Site, w: World, x: nat)
    requires Enabled(w, Enter(x)) && Effective(w.presses[x].phase.t, w.presses[x].action)
    ensures var w' := AfterEnter(site, w, x);
      && x in w'.presses && w'.presses == w.presses[x := w.presses[x].(phase := w'.presses[x].phase)]
      && w'.db.events == w.db.events && w'.effects == w.effects
      && (w'.presses[x].phase.Answered?
          || (w'.presses[x].phase.Entered? && w'.presses[x].phase.t == w.presses[x].phase.t))
      && Present(site, w') == Present(site, w) + One(OwesCount(w'.presses[x].phase)) + (w'.lost - w.lost)
  {
    var p := w.presses[x];
    UpsertCounts(w.db, Roster.EntryOf(site.ev, site.ws, p.user, p.phase.t, w.now), w.now);
  }

  lemma EnterKeepsAccounts(site: Site, w: World, x: nat)
    requires Accounted(site, w) && Enabled(w, Enter(x))
    ensures Accounted(site, After(site, w, Enter(x)))
  {
    EnterMoves(site, w, x);
    MoveInFlight(w.presses, x, After(site, w, Enter(x)).presses[x]);
  }

  lemma TallyKeepsAccounts(site: Site, w: World, x: nat)
    requires Accounted(site, w) && Enabled(w, Tally(x))
    ensures Accounted(site, AfterTally(site, w, x))
  {
    MoveInFlight(w.presses, x, AfterTally(site, w, x).presses[x]);
    GetAfterWrite(w.db.events, site.ev.id, CountBy(1, w.now), site.ev.id);
  }

  lemma AdmitKeepsAccounts(site: Site, w: World, x: nat, ok: bool)
    requires Accounted(site, w) && Enabled(w, Admit(x, ok))
    ensures Accounted(site, AfterAdmit(site, w, x, ok))
  {
    MoveInFlight(w.presses, x, AfterAdmit(site, w, x, ok).presses[x]);
  }

  /** Reading, and the effects on jobs, are nothing to the counter. */
  lemma ReadKeepsAccounts(site: Site, w: World, x: nat, user: string, action: Action)
    requires Accounted(site, w) && x !in w.presses
    ensures Accounted(site, AfterRead(site, w, x, user, action))
  {
    MoveInFlight(w.presses, x, AfterRead(site, w, x, user, action).presses[x]);
  }

  lemma ClearKeepsAccounts(site: Site, w: World, x: nat)
    requires Accounted(site, w) && Enabled(w, Clear(x))
    ensures Accounted(site, AfterClear(site, w, x))
  {
    MoveInFlight(w.presses, x, AfterClear(site, w, x).presses[x]);
  }

  lemma PlanKeepsAccounts(site: Site, w: World, x: nat)
    requires Accounted(site, w) && Enabled(w, Plan(x))
    ensures Accounted(site, AfterPlan(site, w, x))
  {
    MoveInFlight(w.presses, x, AfterPlan(site, w, x).presses[x]);
  }

  lemma StepKeepsAccounts(site: Site, w: World, step: Step)
    requires Accounted(site, w) && Enabled(w, step)
    ensures Accounted(site, After(site, w, step))
  {
    match step {
      case Enter(x) => EnterKeepsAccounts(site, w, x);
      case Admit(x, ok) => AdmitKeepsAccounts(site, w, x, ok);
      case Tally(x) => TallyKeepsAccounts(site, w, x);
      case Read(x, user, action) => ReadKeepsAccounts(site, w, x, user, action);
      case Clear(x) => ClearKeepsAccounts(site, w, x);
      case Plan(x) => PlanKeepsAccounts(site, w, x);
      case Tick(_) =>
    }
  }

  lemma {:induction false} RunKeepsAccounts(site: Site, ws: seq<World>, steps: seq<Step>, i: nat)
    requires Run(site, ws, steps) && i < |ws|
    ensures Accounted(site, ws[i])
  {
    if i == 0 {
      assert InFlight(ws[0].presses) == {};
    } else {
      RunKeepsAccounts(site, ws, steps, i - 1);
      assert Stepped(site, ws, steps, i - 1);
      StepKeepsAccounts(site, ws[i - 1], steps[i - 1]);
    }
  }

  // ----- one button per user

  /** The effects a transition calls for. */
  function Owed(t: Transition): Effects {
    if !HasEffects(t) then NOTHING
    else Effects(if t.addToChannel then 1 else 0, if t.role == Participant then 1 else 0,
                 if t.cancelPeekJob then 1 else 0, if t.role == Peeker then 1 else 0)
  }

  /** The effects performed by a press that has got this far. */
  function DoneBy(phase: Phase, t: Transition): Effects {
    match phase
    case Admitted(_, _) => Owed(t).(counted := 0, cleared := 0, planned := 0)
    case Counted(_, _) => Owed(t).(cleared := 0, planned := 0)
    case Cleared(_, _) => Owed(t).(planned := 0)
    case Answered => Owed(t)
    case _ => NOTHING
  }

  /** This user's presses all used this button and none was refused. */
  predicate OneButton(presses: map<nat, Press>, user: string, action: Action) {
    forall x :: x in presses && presses[x].user == user ==> presses[x].action == action && !presses[x].phase.Refused?
  }

  /** Nobody has written the record yet: all decisions are the first one. */
  ghost predicate Untouched(site: Site, w: World, user: string, action: Action, t: Transition) {
    && DecideTransition(RecordOf(w.db, site.ev.id, user), action) == t
    && EffectsOf(w, user) == NOTHING
    && forall x :: x in w.presses && w.presses[x].user == user ==>
         w.presses[x].phase == if HasEffects(t) then Decided(t) else Answered
  }

  /** One press has won; the others have nothing to do. */
  ghost predicate WonBy(site: Site, w: World, user: string, action: Action, t: Transition, winner: nat) {
    && !HasEffects(DecideTransition(RecordOf(w.db, site.ev.id, user), action))
    && winner in w.presses && w.presses[winner].user == user && PhaseOk(w.presses[winner].phase, t)
    && EffectsOf(w, user) == DoneBy(w.presses[winner].phase, t)
    && forall x :: x in w.presses && w.presses[x].user == user && x != winner ==>
         w.presses[x].phase == Decided(t) || w.presses[x].phase == Answered
  }

  ghost predicate PhaseOk(phase: Phase, t: Transition) {
    && !phase.Decided? && !phase.Refused?
    && (!phase.Answered? ==> phase.t == t && (t.role == Peeker ==> phase.part.expiresAt.Some?))
  }

  ghost predicate Single(site: Site, w: World, user: string, action: Action, t: Transition) {
    || Untouched(site, w, user, action, t)
    || (HasEffects(t) && exists winner :: WonBy(site, w, user, action, t, winner))
  }

  /** An upsert leaves the records of other users alone, and settles its own. */
  lemma UpsertFrame(db: Db, entry: Entry, now: int, user: string)
    ensures var (db', _, after) := UpsertPart(db, entry, now);
            RecordOf(db', entry.eventId, user) ==
            if user == entry.userId then Some(after) else RecordOf(db, entry.eventId, user)
  {
    match FindUser(db.parts, entry.eventId, entry.userId) {
      case None => FindUserAppend(db.parts, Created(entry, db.nextId, now), entry.eventId, user);
      case Some(i) => FindUserSet(db.parts, i, Renewed(db.parts[i], entry, now), entry.eventId, user);
    }
  }

  /** Nothing about this user changed. */
  ghost predicate SameUser(site: Site, w: World, w': World, user: string) {
    && RecordOf(w'.db, site.ev.id, user) == RecordOf(w.db, site.ev.id, user)
    && EffectsOf(w', user) == EffectsOf(w, user)
    && (forall x :: x in w.presses && w.presses[x].user == user ==> x in w'.presses && w'.presses[x] == w.presses[x])
    && (forall x :: x in w'.presses && w'.presses[x].user == user ==> x in w.presses && w.presses[x].user == user)
  }

  lemma SameUserKeepsSingle(site: Site, w: World, w': World, user: string, action: Action, t: Transition)
    requires Single(site, w, user, action, t) && SameUser(site, w, w', user)
    ensures Single(site, w', user, action, t)
  {
    if !Untouched(site, w, user, action, t) {
      var winner :| WonBy(site, w, user, action, t, winner);
      assert WonBy(site, w', user, action, t, winner);
    }
  }

  /** Only entering writes a record. */
  lemma StepKeepsRecords(site: Site, w: World, step: Step)
    requires Enabled(w, step) && !step.Enter?
    ensures After(site, w, step).db.parts == w.db.parts
  {
  }

  /** A step moves one press, and does nothing to any user but its own. */
  lemma StepMovesOne(site: Site, w: World, step: Step)
    requires Enabled(w, step) && !step.Tick?
    ensures var w' := After(site, w, step);
      && step.x in w'.presses && w'.presses == w.presses[step.x := w'.presses[step.x]]
      && (step.x in w.presses ==> w.presses[step.x].user == w'.presses[step.x].user)
      && forall user :: user != w'.presses[step.x].user ==> EffectsOf(w', user) == EffectsOf(w, user)
  {
  }

  lemma OthersUntouched(site: Site, w: World, step: Step, user: string)
    requires Enabled(w, step)
    requires step.Tick? || After(site, w, step).presses[step.x].user != user
    ensures SameUser(site, w, After(site, w, step), user)
  {
    if !step.Tick? {
      StepMovesOne(site, w, step);
    }
    if step.Enter? {
      var p := w.presses[step.x];
      UpsertFrame(w.db, Roster.EntryOf(site.ev, site.ws, p.user, p.phase.t, w.now), w.now, user);
    } else {
      StepKeepsRecords(site, w, step);
    }
  }

  /** The first upsert wins; every later one finds the matter settled. */
  lemma EnterSettles(site: Site, w: World, x: nat, action: Action)
    requires Enabled(w, Enter(x)) && w.presses[x].action == action && Effective(w.presses[x].phase.t, action)
    ensures var w' := AfterEnter(site, w, x); var p := w.presses[x];
      var was := DecideTransition(RecordOf(w.db, site.ev.id, p.user), action);
      && !HasEffects(DecideTransition(RecordOf(w'.db, site.ev.id, p.user), action))
      && (!HasEffects(was) ==> w'.presses[x].phase.Answered? && w'.lost == w.lost)
      && (was == p.phase.t ==>
            w'.lost == w.lost && w'.presses[x].phase.Entered?
            && (was.role == Peeker ==> w'.presses[x].phase.part.expiresAt.Some?))
  {
    var p := w.presses[x];
    var entry := Roster.EntryOf(site.ev, site.ws, p.user, p.phase.t, w.now);
    UpsertFrame(w.db, entry, w.now, p.user);
    UpsertCounts(w.db, entry, w.now);
  }

  lemma FirstWins(site: Site, w: World, x: nat, action: Action, t: Transition)
    requires Enabled(w, Enter(x)) && w.presses[x].action == action && Effective(w.presses[x].phase.t, action)
    requires Untouched(site, w, w.presses[x].user, action, t)
    ensures WonBy(site, AfterEnter(site, w, x), w.presses[x].user, action, t, x)
    ensures AfterEnter(site, w, x).lost == w.lost
  {
    EnterMoves(site, w, x);
    EnterSettles(site, w, x, action);
  }

  lemma LaterFindsItSettled(site: Site, w: World, x: nat, action: Action, t: Transition, winner: nat)
    requires Enabled(w, Enter(x)) && w.presses[x].action == action && Effective(w.presses[x].phase.t, action)
    requires WonBy(site, w, w.presses[x].user, action, t, winner)
    ensures WonBy(site, AfterEnter(site, w, x), w.presses[x].user, action, t, winner)
    ensures AfterEnter(site, w, x).lost == w.lost
  {
    EnterMoves(site, w, x);
    EnterSettles(site, w, x, action);
  }

  lemma EnterKeepsSingle(site: Site, w: World, x: nat, action: Action, t: Transition)
    requires Enabled(w, Enter(x)) && w.presses[x].action == action && Effective(w.presses[x].phase.t, action)
    requires Single(site, w, w.presses[x].user, action, t)
    ensures Single(site, AfterEnter(site, w, x), w.presses[x].user, action, t)
    ensures AfterEnter(site, w, x).lost == w.lost
  {
    var user := w.presses[x].user;
    if Untouched(site, w, user, action, t) {
      FirstWins(site, w, x, action, t);
    } else {
      var winner :| WonBy(site, w, user, action, t, winner);
      LaterFindsItSettled(site, w, x, action, t, winner);
    }
  }

  /** The winner performs what it owes, one effect after the other. */
  lemma WinnerProceeds(site: Site, w: World, step: Step, t: Transition)
    requires Enabled(w, step) && (step.Admit? || step.Tally? || step.Clear? || step.Plan?)
    requires var p := w.presses[step.x];
      PhaseOk(p.phase, t) && HasEffects(t) && Effective(t, p.action) && EffectsOf(w, p.user) == DoneBy(p.phase, t)
    ensures var w' := After(site, w, step); var p' := w'.presses[step.x];
      && w'.presses == w.presses[step.x := p'] && p'.user == w.presses[step.x].user
      && (!p'.phase.Refused? ==> w'.lost == w.lost && PhaseOk(p'.phase, t) && EffectsOf(w', p'.user) == DoneBy(p'.phase, t))
  {
  }

  lemma EffectKeepsSingle(site: Site, w: World, step: Step, action: Action, t: Transition)
    requires Enabled(w, step) && (step.Admit? || step.Tally? || step.Clear? || step.Plan?) && PhasesOk(w.presses)
    requires w.presses[step.x].action == action && !After(site, w, step).presses[step.x].phase.Refused?
    requires Single(site, w, w.presses[step.x].user, action, t)
    ensures Single(site, After(site, w, step), w.presses[step.x].user, action, t)
    ensures After(site, w, step).presses[step.x].user == w.presses[step.x].user && After(site, w, step).lost == w.lost
  {
    var user := w.presses[step.x].user;
    StepKeepsRecords(site, w, step);
    var winner :| WonBy(site, w, user, action, t, winner);
    WinnerProceeds(site, w, step, t);
    assert WonBy(site, After(site, w, step), user, action, t, winner);
  }

  /** Who presses what is fixed when the press begins. */
  lemma StepKeepsPress(site: Site, w: World, step: Step)
    requires Enabled(w, step) && !step.Tick? && !step.Read?
    ensures step.x in After(site, w, step).presses
    ensures After(site, w, step).presses[step.x].user == w.presses[step.x].user
    ensures After(site, w, step).presses[step.x].action == w.presses[step.x].action
  {
  }

  lemma OwnStepKeepsSingle(site: Site, w: World, step: Step, action: Action, t: Transition)
    requires Enabled(w, step) && !step.Tick? && PhasesOk(w.presses)
    requires var p := After(site, w, step).presses[step.x];
             p.action == action && !p.phase.Refused? && Single(site, w, p.user, action, t)
    ensures Single(site, After(site, w, step), After(site, w, step).presses[step.x].user, action, t)
    ensures After(site, w, step).lost == w.lost
  {
    if step.Enter? {
      EnterMoves(site, w, step.x);
      EnterKeepsSingle(site, w, step.x, action, t);
    } else if step.Read? {
      ReadKeepsSingle(site, w, step.x, step.user, action, t);
    } else {
      StepKeepsPress(site, w, step);
      EffectKeepsSingle(site, w, step, action, t);
    }
  }

  lemma ReadKeepsSingle(site: Site, w: World, x: nat, user: string, action: Action, t: Transition)
    requires Enabled(w, Read(x, user, action)) && Single(site, w, user, action, t)
    ensures Single(site, AfterRead(site, w, x, user, action), user, action, t)
  {
    var w' := AfterRead(site, w, x, user, action);
    if !Untouched(site, w, user, action, t) {
      var winner :| WonBy(site, w, user, action, t, winner);
      assert WonBy(site, w', user, action, t, winner);
    }
  }

  ghost predicate AllSingle(site: Site, first: World, w: World, button: string -> Action) {
    forall user :: Single(site, w, user, button(user), DecideTransition(RecordOf(first.db, site.ev.id, user), button(user)))
  }

  lemma StepKeepsAllSingle(site: Site, first: World, w: World, step: Step, button: string -> Action)
    requires Enabled(w, step) && PhasesOk(w.presses) && AllSingle(site, first, w, button) && w.lost == 0
    requires forall user :: OneButton(After(site, w, step).presses, user, button(user))
    ensures AllSingle(site, first, After(site, w, step), button) && After(site, w, step).lost == 0
  {
    var w' := After(site, w, step);
    if !step.Tick? {
      var user := w'.presses[step.x].user;
      assert OneButton(w'.presses, user, button(user));
      OwnStepKeepsSingle(site, w, step, button(user), DecideTransition(RecordOf(first.db, site.ev.id, user), button(user)));
    }
    forall user
      ensures Single(site, w', user, button(user), DecideTransition(RecordOf(first.db, site.ev.id, user), button(user)))
    {
      if step.Tick? || w'.presses[step.x].user != user {
        OthersUntouched(site, w, step, user);
        SameUserKeepsSingle(site, w, w', user, button(user), DecideTransition(RecordOf(first.db, site.ev.id, user), button(user)));
      }
    }
  }

  /** Buttons and refusals stay on record. */
  lemma StepKeepsButtons(site: Site, w: World, step: Step, user: string, action: Action)
    requires Enabled(w, step) && OneButton(After(site, w, step).presses, user, action)
    ensures OneButton(w.presses, user, action)
  {
    var w' := After(site, w, step);
    forall x | x in w.presses && w.presses[x].user == user
      ensures w.presses[x].action == action && !w.presses[x].phase.Refused?
    {
      assert x in w'.presses && w'.presses[x].user == user && w'.presses[x].action == w.presses[x].action;
    }
  }

  lemma {:induction false} RunKeepsSingle(site: Site, ws: seq<World>, steps: seq<Step>, i: nat, button: string -> Action)
    requires Run(site, ws, steps) && i < |ws| && forall user :: OneButton(ws[i].presses, user, button(user))
    ensures AllSingle(site, ws[0], ws[i], button) && ws[i].lost == 0
  {
    if i == 0 {
      forall user
        ensures Untouched(site, ws[0], user, button(user), DecideTransition(RecordOf(ws[0].db, site.ev.id, user), button(user)))
      {
      }
    } else {
      assert Stepped(site, ws, steps, i - 1);
      forall user
        ensures OneButton(ws[i - 1].presses, user, button(user))
      {
        assert OneButton(ws[i].presses, user, button(user));
        StepKeepsButtons(site, ws[i - 1], steps[i - 1], user, button(user));
      }
      RunKeepsSingle(site, ws, steps, i - 1, button);
      RunKeepsAccounts(site, ws, steps, i - 1);
      StepKeepsAllSingle(site, ws[0], ws[i - 1], steps[i - 1], button);
    }
  }
}
