/** Participation records and their transitions (domain/participation.go and the
    participations part of memstore/memstore.go). */
module Participations {
  import opened Common

  datatype Role = Participant | Peeker

  datatype Standing = Active | Expired | Removed | Left

  datatype Action = Join | Peek

  datatype Change = Joined | Peeked | Promoted | AlreadyParticipant | AlreadyPeeking

  /** The kind of a transition and the side effects it calls for. */
  datatype Transition = Transition(change: Change, role: Role, addToChannel: bool, cancelPeekJob: bool)

  datatype Participation = Participation(
    id: nat,
    eventId: nat,
    workspaceId: nat,
    userId: string,
    role: Role,
    status: Standing,
    joinedAt: int,
    expiresAt: Option<int>,
    peekCount: int,
    updatedAt: int)
  {
    predicate IsActive() {
      status == Active
    }

    predicate PeekExpired(now: int) {
      role == Peeker && expiresAt.Some? && expiresAt.value <= now
    }
  }

  function NewEntryTransition(action: Action): Transition {
    match action
    case Peek => Transition(Peeked, Peeker, true, false)
    case Join => Transition(Joined, Participant, true, false)
  }

  function DecideTransition(prev: Option<Participation>, action: Action): Transition {
    if prev.None? || prev.value.status != Active then NewEntryTransition(action)
    else
      match prev.value.role
      case Participant => Transition(AlreadyParticipant, Participant, false, false)
      case Peeker =>
        if action == Join then Transition(Promoted, Participant, false, true)
        else Transition(AlreadyPeeking, Peeker, false, false)
  }

  // ----- the stored sequence

  /** findParticipation: the first record of this user in this event. */
  function FindUser(parts: seq<Participation>, eventId: nat, userId: string): (r: Option<nat>)
    ensures r.Some? ==> r.value < |parts| && parts[r.value].eventId == eventId && parts[r.value].userId == userId
    ensures r.Some? ==> forall i :: 0 <= i < r.value ==> !(parts[i].eventId == eventId && parts[i].userId == userId)
    ensures r.None? ==> forall i :: 0 <= i < |parts| ==> !(parts[i].eventId == eventId && parts[i].userId == userId)
  {
    if parts == [] then None
    else
      var last := |parts| - 1;
      var before := FindUser(parts[..last], eventId, userId);
      if before.Some? then before
      else if parts[last].eventId == eventId && parts[last].userId == userId then Some(last)
      else None
  }

  function FindId(parts: seq<Participation>, id: nat): (r: Option<nat>)
    ensures r.Some? ==> r.value < |parts| && parts[r.value].id == id
    ensures r.Some? ==> forall i :: 0 <= i < r.value ==> parts[i].id != id
    ensures r.None? ==> forall i :: 0 <= i < |parts| ==> parts[i].id != id
  {
    if parts == [] then None
    else
      var last := |parts| - 1;
      var before := FindId(parts[..last], id);
      if before.Some? then before else if parts[last].id == id then Some(last) else None
  }

  function At(parts: seq<Participation>, i: Option<nat>): Option<Participation>
    requires i.Some? ==> i.value < |parts|
  {
    match i
    case None => None
    case Some(k) => Some(parts[k])
  }

  function PeekIncrement(role: Role): int {
    if role == Peeker then 1 else 0
  }

  datatype Entry = Entry(eventId: nat, workspaceId: nat, userId: string, role: Role, expiresAt: Option<int>)

  function Created(entry: Entry, id: nat, now: int): Participation {
    Participation(id, entry.eventId, entry.workspaceId, entry.userId, entry.role, Active, now, entry.expiresAt,
                  PeekIncrement(entry.role), now)
  }

  /** An active participant who presses peek is not demoted. */
  function Renewed(stored: Participation, entry: Entry, now: int): Participation {
    var renewed := stored.(status := Active, updatedAt := now);
    if stored.role == Participant && stored.status == Active then renewed
    else renewed.(role := entry.role, expiresAt := entry.expiresAt,
                  peekCount := stored.peekCount + PeekIncrement(entry.role))
  }

  /** Upsert returns the records, and the record before and after. `id` is used only when
      there was none before. */
  function Upsert(parts: seq<Participation>, entry: Entry, id: nat, now: int)
    : (seq<Participation>, Option<Participation>, Participation)
  {
    match FindUser(parts, entry.eventId, entry.userId)
    case None =>
      var created := Created(entry, id, now);
      (parts + [created], None, created)
    case Some(i) =>
      var renewed := Renewed(parts[i], entry, now);
      (parts[i := renewed], Some(parts[i]), renewed)
  }

  function WithStatus(part: Participation, status: Standing, now: int): Participation {
    part.(status := status, updatedAt := now, expiresAt := if status != Active then None else part.expiresAt)
  }

  function SetStatus(parts: seq<Participation>, id: nat, status: Standing, now: int): seq<Participation> {
    match FindId(parts, id)
    case None => parts
    case Some(i) => parts[i := WithStatus(parts[i], status, now)]
  }

  predicate CountsAs(part: Participation, eventId: nat, role: Role) {
    part.eventId == eventId && part.status == Active && part.role == role
  }

  function CountActive(parts: seq<Participation>, eventId: nat, role: Role): (n: nat)
    ensures n <= |parts|
  {
    if parts == [] then 0
    else
      var last := |parts| - 1;
      CountActive(parts[..last], eventId, role) + if CountsAs(parts[last], eventId, role) then 1 else 0
  }

  // ----- lemmas about counting and finding

  function One(b: bool): int {
    if b then 1 else 0
  }

  lemma CountAppend(parts: seq<Participation>, part: Participation, eventId: nat, role: Role)
    ensures CountActive(parts + [part], eventId, role) ==
            CountActive(parts, eventId, role) + One(CountsAs(part, eventId, role))
  {
    assert (parts + [part])[..|parts|] == parts;
  }

  lemma {:induction false} CountSet(parts: seq<Participation>, i: nat, part: Participation, eventId: nat, role: Role)
    requires i < |parts|
    ensures CountActive(parts[i := part], eventId, role) ==
            CountActive(parts, eventId, role)
            - One(CountsAs(parts[i], eventId, role)) + One(CountsAs(part, eventId, role))
  {
    var last := |parts| - 1;
    if i < last {
      CountSet(parts[..last], i, part, eventId, role);
      assert parts[i := part][..last] == parts[..last][i := part];
    } else {
      assert parts[i := part][..last] == parts[..last];
    }
  }

  lemma {:induction false} CountNone(parts: seq<Participation>, eventId: nat, role: Role)
    requires forall i :: 0 <= i < |parts| ==> parts[i].eventId != eventId
    ensures CountActive(parts, eventId, role) == 0
  {
    if parts != [] {
      CountNone(parts[..|parts| - 1], eventId, role);
    }
  }

  lemma {:induction false} FindUserSet(parts: seq<Participation>, i: nat, part: Participation, eventId: nat, userId: string)
    requires i < |parts| && part.eventId == parts[i].eventId && part.userId == parts[i].userId
    ensures FindUser(parts[i := part], eventId, userId) == FindUser(parts, eventId, userId)
  {
    var last := |parts| - 1;
    if i < last {
      FindUserSet(parts[..last], i, part, eventId, userId);
      assert parts[i := part][..last] == parts[..last][i := part];
    } else {
      assert parts[i := part][..last] == parts[..last];
    }
  }

  lemma FindUserAppend(parts: seq<Participation>, part: Participation, eventId: nat, userId: string)
    ensures FindUser(parts + [part], eventId, userId) ==
            if FindUser(parts, eventId, userId).Some? then FindUser(parts, eventId, userId)
            else if part.eventId == eventId && part.userId == userId then Some(|parts|) else None
  {
    assert (parts + [part])[..|parts|] == parts;
  }

  /** A press that must have an effect has exactly one: afterwards the record is active
      in the role the transition names, and pressing again would change nothing. */
  lemma UpsertSettles(parts: seq<Participation>, entry: Entry, id: nat, now: int, action: Action)
    requires entry.role == DecideTransition(At(parts, FindUser(parts, entry.eventId, entry.userId)), action).role
    ensures var (parts', before, after) := Upsert(parts, entry, id, now);
      && At(parts', FindUser(parts', entry.eventId, entry.userId)) == Some(after)
      && after.IsActive() && after.role == entry.role
      && !DecideTransition(Some(after), action).addToChannel && !DecideTransition(Some(after), action).cancelPeekJob
  {
    match FindUser(parts, entry.eventId, entry.userId) {
      case None => FindUserAppend(parts, Created(entry, id, now), entry.eventId, entry.userId);
      case Some(i) => FindUserSet(parts, i, Renewed(parts[i], entry, now), entry.eventId, entry.userId);
    }
  }
}
