/** What holds for concurrent button presses, when it does not, and that presses run without
    interruption are the use case. */
module PressGuarantees {
  import opened Common
  import opened Participations
  import opened Events
  import opened Manager
  import opened Presses
  import Roster

  /** The step loses a participant: a press enters a record on which its button would still
      make one, but by another transition than the press had read, and so answers without
      counting; or the provider turns away a press that had made one. */
  predicate Loses(site: Site, w: World, step: Step)
    requires Enabled(w, step)
  {
    match step
    case Enter(x) =>
      var p := w.presses[x];
      var settled := DecideTransition(RecordOf(w.db, site.ev.id, p.user), p.action);
      settled.change != p.phase.t.change && settled.role == Participant && HasEffects(settled)
    case Admit(x, ok) => !ok && w.presses[x].phase.t.role == Participant
    case _ => false
  }

  lemma StepLoses(site: Site, w: World, step: Step)
    requires Enabled(w, step)
    ensures After(site, w, step).lost == w.lost + One(Loses(site, w, step))
  {
    if step.Enter? {
      var p := w.presses[step.x];
      UpsertCounts(w.db, Roster.EntryOf(site.ev, site.ws, p.user, p.phase.t, w.now), w.now);
    }
  }

  ghost predicate LosesAt(site: Site, ws: seq<World>, steps: seq<Step>, k: nat)
    requires |ws| == |steps| + 1 && k < |steps|
  {
    Enabled(ws[k], steps[k]) && Loses(site, ws[k], steps[k])
  }

  lemma {:induction false} LostIffSomeStepLoses(site: Site, ws: seq<World>, steps: seq<Step>, i: nat)
    requires Run(site, ws, steps) && i < |ws|
    ensures ws[i].lost == 0 <==> forall k :: 0 <= k < i ==> !LosesAt(site, ws, steps, k)
  {
    if i > 0 {
      LostIffSomeStepLoses(site, ws, steps, i - 1);
      assert Stepped(site, ws, steps, i - 1);
      StepLoses(site, ws[i - 1], steps[i - 1]);
      assert LosesAt(site, ws, steps, i - 1) <==> Loses(site, ws[i - 1], steps[i - 1]);
    }
  }

  /** For any interleaving of any presses, the counter and the joins in flight add up to the
      active participants exactly when no step so far has lost one. */
  lemma CountedUnlessLost(site: Site, ws: seq<World>, steps: seq<Step>, i: nat)
    requires Run(site, ws, steps) && i < |ws|
    ensures Counter(site, ws[i]) + |InFlight(ws[i].presses)| + ws[i].lost == Present(site, ws[i])
    ensures Counter(site, ws[i]) + |InFlight(ws[i].presses)| == Present(site, ws[i])
            <==> forall k :: 0 <= k < i ==> !LosesAt(site, ws, steps, k)
  {
    RunKeepsAccounts(site, ws, steps, i);
    LostIffSomeStepLoses(site, ws, steps, i);
  }

  /** When each user presses one kind of button and the provider refuses nobody, no press is
      lost: the counter and the joins in flight are the active participants. */
  lemma PressesCountOnce(site: Site, ws: seq<World>, steps: seq<Step>, i: nat, button: string -> Action)
    requires Run(site, ws, steps) && i < |ws| && forall user :: OneButton(ws[i].presses, user, button(user))
    ensures Counter(site, ws[i]) + |InFlight(ws[i].presses)| == Present(site, ws[i])
  {
    RunKeepsSingle(site, ws, steps, i, button);
    RunKeepsAccounts(site, ws, steps, i);
  }

  /** And once a user's presses are all answered, each side effect the first press called
      for was performed exactly once, and none if the matter was settled beforehand. */
  lemma EffectsExactlyOnce(site: Site, ws: seq<World>, steps: seq<Step>, i: nat, button: string -> Action, user: string)
    requires Run(site, ws, steps) && i < |ws| && forall u :: OneButton(ws[i].presses, u, button(u))
    requires exists x :: x in ws[i].presses && ws[i].presses[x].user == user
    requires forall x :: x in ws[i].presses && ws[i].presses[x].user == user ==> ws[i].presses[x].phase.Answered?
    ensures EffectsOf(ws[i], user) == Owed(DecideTransition(RecordOf(ws[0].db, site.ev.id, user), button(user)))
  {
    RunKeepsSingle(site, ws, steps, i, button);
    var t := DecideTransition(RecordOf(ws[0].db, site.ev.id, user), button(user));
    assert Single(site, ws[i], user, button(user), t);
    if Untouched(site, ws[i], user, button(user), t) {
      var x :| x in ws[i].presses && ws[i].presses[x].user == user;
    } else {
      var winner :| WonBy(site, ws[i], user, button(user), t, winner);
    }
  }

  // ----- two buttons, and no interleaving

  lemma PeekEnters(site: Site, w: World, y: nat)
    requires Enabled(w, Enter(y)) && w.presses[y].phase.t == NewEntryTransition(Peek) && w.presses[y].action == Peek
    requires RecordOf(w.db, site.ev.id, w.presses[y].user).None?
    ensures var w' := AfterEnter(site, w, y); var record := RecordOf(w'.db, site.ev.id, w.presses[y].user);
      && record.Some? && record.value.IsActive() && record.value.role == Peeker
      && w'.lost == w.lost && Present(site, w') == Present(site, w)
      && w'.presses == w.presses[y := w'.presses[y]] && w'.db.events == w.db.events
  {
    var entry := Roster.EntryOf(site.ev, site.ws, w.presses[y].user, w.presses[y].phase.t, w.now);
    UpsertCounts(w.db, entry, w.now);
    UpsertFrame(w.db, entry, w.now, w.presses[y].user);
  }

  lemma JoinIsLost(site: Site, w: World, x: nat)
    requires Enabled(w, Enter(x)) && w.presses[x].phase.t == NewEntryTransition(Join) && w.presses[x].action == Join
    requires var record := RecordOf(w.db, site.ev.id, w.presses[x].user);
             record.Some? && record.value.IsActive() && record.value.role == Peeker
    ensures var w' := AfterEnter(site, w, x);
      && w'.presses[x].phase.Answered? && w'.lost == w.lost + 1
      && Present(site, w') == Present(site, w) + 1 && w'.db.events == w.db.events
  {
    UpsertCounts(w.db, Roster.EntryOf(site.ev, site.ws, w.presses[x].user, w.presses[x].phase.t, w.now), w.now);
  }

  /** With two buttons the promise fails: a join decided before the same user's peek, and
      entered after it, makes a participant whom nobody counts. */
  lemma JoinLosesToPeek(site: Site, w: World, user: string, x: nat, y: nat)
    requires RecordOf(w.db, site.ev.id, user).None? && x !in w.presses && y !in w.presses && x != y
    ensures var w2 := AfterRead(site, AfterRead(site, w, x, user, Join), y, user, Peek);
            var w4 := AfterEnter(site, AfterEnter(site, w2, y), x);
            && w4.presses[x].phase.Answered? && w4.lost == w.lost + 1
            && Counter(site, w4) == Counter(site, w) && Present(site, w4) == Present(site, w) + 1
  {
    var w2 := AfterRead(site, AfterRead(site, w, x, user, Join), y, user, Peek);
    PeekEnters(site, w2, y);
    JoinIsLost(site, AfterEnter(site, w2, y), x);
  }

  /** The side effects of a press that won, one after the other. */
  function Effected(site: Site, w: World, x: nat): World
    requires x in w.presses && w.presses[x].phase.Entered?
  {
    AfterPlan(site, AfterClear(site, AfterTally(site, AfterAdmit(site, w, x, true), x), x), x)
  }

  lemma EffectedIsAfterTransition(site: Site, w: World, x: nat)
    requires x in w.presses && w.presses[x].phase.Entered?
    ensures var p := w.presses[x]; var w' := Effected(site, w, x);
      && w'.presses[x].phase.Answered?
      && w'.db == AfterTransition(w.db, site.ev, p.phase.part, p.phase.t, w.now)
      && w'.chat == if p.phase.t.addToChannel then AfterAdmit(site, w, x, true).chat else w.chat
  {
  }

  /** A press that enters right after it read has nobody to be settled by. */
  lemma EntersAtOnce(site: Site, w: World, user: string, action: Action, x: nat)
    requires x !in w.presses && HasEffects(DecideTransition(RecordOf(w.db, site.ev.id, user), action))
    ensures var t := DecideTransition(RecordOf(w.db, site.ev.id, user), action);
      var w2 := AfterEnter(site, AfterRead(site, w, x, user, action), x);
      var (db, _, after) := UpsertPart(w.db, Roster.EntryOf(site.ev, site.ws, user, t, w.now), w.now);
      && w2.presses[x] == Press(user, action, Entered(t, after))
      && w2.db == db && w2.chat == w.chat && w2.now == w.now
  {
    var t := DecideTransition(RecordOf(w.db, site.ev.id, user), action);
    UpsertCounts(w.db, Roster.EntryOf(site.ev, site.ws, user, t, w.now), w.now);
  }

  lemma AdmitIsJoinChannel(s: State, site: Site, w: World, x: nat)
    requires w.chat == s.chat && x in w.presses && w.presses[x].phase.Entered? && w.presses[x].phase.t.addToChannel
    requires site.ev.channel.id.Some? ==> site.ev.channel.id.value in s.chat.channels
    ensures var (s', r) := JoinChannel(s, site.ev, w.presses[x].user, 0);
            r.Ok? && s'.db == s.db && s' == s.(chat := AfterAdmit(site, w, x, true).chat)
  {
  }

  /** Run without interruption, the steps of a press are the use case `Apply`. */
  lemma UninterruptedIsApply(s: State, site: Site, w: World, user: string, action: Action, x: nat, w2: World)
    requires OpenEvent(s, site.ev.id) == Ok((site.ev, site.ws))
    requires w.db == s.db && w.chat == s.chat && x !in w.presses
    requires site.ev.channel.id.Some? ==> site.ev.channel.id.value in s.chat.channels
    requires HasEffects(DecideTransition(RecordOf(w.db, site.ev.id, user), action))
    requires w2 == AfterEnter(site, AfterRead(site, w, x, user, action), x)
    ensures x in w2.presses && w2.presses[x].phase.Entered?
    ensures x in Effected(site, w2, x).presses && Effected(site, w2, x).presses[x].phase.Answered?
    ensures Apply(s, site.ev.id, user, action, w.now) ==
            (s.(db := Effected(site, w2, x).db, chat := Effected(site, w2, x).chat),
             Ok(DecideTransition(RecordOf(w.db, site.ev.id, user), action)))
  {
    var t := DecideTransition(RecordOf(w.db, site.ev.id, user), action);
    EntersAtOnce(site, w, user, action, x);
    EffectedIsAfterTransition(site, w2, x);
    assert JoinChannel(s, site.ev, user, 0).1.Ok? && JoinChannel(s, site.ev, user, 0).0.db == s.db;
    if t.addToChannel {
      AdmitIsJoinChannel(s, site, w2, x);
    }
    Roster.PressRunsThrough(s, site.ev, site.ws, user, action, t, w.now);
    assert Apply(s, site.ev.id, user, action, w.now) == Manager.Press(s, site.ev, site.ws, user, action, t, w.now);
  }
}
