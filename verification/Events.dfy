/** Events and their lifecycle (domain/event.go and the events part of memstore/memstore.go). */
module Events {
  import opened Common
  import opened Reminders

  datatype EventStatus = Open | Ended | CanceledEvent

  datatype EndReason = Manual | Auto | CanceledByHand | ProvisionFailed | ChannelLost

  /** `id` is None for the empty channel id. */
  datatype ChannelRef = ChannelRef(id: Option<nat>, name: string, archived: bool)

  const NO_CHANNEL := ChannelRef(None, "", false)

  datatype Event = Event(
    id: nat,
    workspaceId: nat,
    startsAt: int,
    endsAt: Option<int>,
    status: EventStatus,
    organizer: string,
    channel: ChannelRef,
    policy: Policy,
    participantCount: int,
    endedAt: Option<int>,
    endReason: Option<EndReason>,
    createdAt: int,
    updatedAt: int)
  {
    predicate IsOpen() {
      status == Open
    }

    function AutoEndAt(grace: int): int {
      match endsAt
      case Some(at) => at
      case None => startsAt + grace
    }
  }

  /** `textValid` says whether title, description, location and origin pass validation. */
  datatype NewEventParams = NewEventParams(
    workspaceId: nat,
    textValid: bool,
    startsAt: int,
    endsAt: Option<int>,
    organizer: string,
    policy: Policy)

  datatype EventUpdate = EventUpdate(
    textValid: bool,
    startsAt: Option<int>,
    endsAt: Option<int>,
    clearEndsAt: bool,
    policy: Option<Policy>)

  predicate ValidEndsAt(startsAt: int, endsAt: Option<int>) {
    endsAt.Some? ==> endsAt.value > startsAt
  }

  ghost predicate ValidNewEvent(p: NewEventParams, now: int) {
    p.textValid && p.organizer != "" && p.startsAt > now && ValidEndsAt(p.startsAt, p.endsAt) && Valid(p.policy)
  }

  function FreshEvent(p: NewEventParams, id: nat, now: int): Event {
    Event(id, p.workspaceId, p.startsAt, p.endsAt, Open, p.organizer, NO_CHANNEL, p.policy, 0, None, None, now, now)
  }

  /** The event after an edit, before validation. */
  function Edited(ev: Event, u: EventUpdate, now: int): Event {
    ev.(
    startsAt := if u.startsAt.Some? then u.startsAt.value else ev.startsAt,
    endsAt := if u.clearEndsAt then None else if u.endsAt.Some? then u.endsAt else ev.endsAt,
    policy := if u.policy.Some? then u.policy.value else ev.policy,
    updatedAt := now)
  }

  ghost predicate ValidEdit(ev: Event, u: EventUpdate, now: int) {
    var next := Edited(ev, u, now);
    u.textValid && ValidEndsAt(next.startsAt, next.endsAt) && (u.policy.Some? ==> Valid(u.policy.value))
  }

  function Closed(ev: Event, status: EventStatus, reason: EndReason, now: int): Event {
    ev.(status := status, endReason := Some(reason), endedAt := Some(now), updatedAt := now)
  }

  // ----- the stored sequence

  function FindEvent(events: seq<Event>, id: nat): (r: Option<nat>)
    ensures r.Some? ==> r.value < |events| && events[r.value].id == id
    ensures r.Some? ==> forall i :: 0 <= i < r.value ==> events[i].id != id
    ensures r.None? ==> forall i :: 0 <= i < |events| ==> events[i].id != id
  {
    if events == [] then None
    else
      var last := |events| - 1;
      var before := FindEvent(events[..last], id);
      if before.Some? then before else if events[last].id == id then Some(last) else None
  }

  function GetEvent(events: seq<Event>, id: nat): (r: Option<Event>)
    ensures r.Some? ==> r.value.id == id
  {
    match FindEvent(events, id)
    case None => None
    case Some(i) => Some(events[i])
  }

  /** The fields `Update` writes: neither the channel nor the participant count. */
  function Overwritten(stored: Event, ev: Event): Event {
    stored.(startsAt := ev.startsAt, endsAt := ev.endsAt, status := ev.status, policy := ev.policy,
            endedAt := ev.endedAt, endReason := ev.endReason, updatedAt := ev.updatedAt)
  }

  datatype EventWrite =
    | Overwrite(ev: Event)
    | SetChannel(channel: ChannelRef, at: int)
    | CountBy(delta: int, at: int)

  function WrittenEvent(stored: Event, write: EventWrite): Event {
    match write
    case Overwrite(ev) => Overwritten(stored, ev)
    case SetChannel(channel, at) => stored.(channel := channel, updatedAt := at)
    case CountBy(delta, at) => stored.(participantCount := stored.participantCount + delta, updatedAt := at)
  }

  function WriteEvent(events: seq<Event>, id: nat, write: EventWrite): seq<Event> {
    match FindEvent(events, id)
    case None => events
    case Some(i) => events[i := WrittenEvent(events[i], write)]
  }

  // ----- reading after writing

  lemma {:induction false} FindEventSet(events: seq<Event>, i: nat, ev: Event, id: nat)
    requires i < |events| && ev.id == events[i].id
    ensures FindEvent(events[i := ev], id) == FindEvent(events, id)
  {
    var last := |events| - 1;
    if i < last {
      FindEventSet(events[..last], i, ev, id);
      assert events[i := ev][..last] == events[..last][i := ev];
    } else {
      assert events[i := ev][..last] == events[..last];
    }
  }

  lemma GetAfterWrite(events: seq<Event>, id: nat, write: EventWrite, other: nat)
    ensures GetEvent(WriteEvent(events, id, write), other) ==
            if other == id && GetEvent(events, id).Some? then Some(WrittenEvent(GetEvent(events, id).value, write))
            else GetEvent(events, other)
  {
    match FindEvent(events, id) {
      case None =>
      case Some(i) => FindEventSet(events, i, WrittenEvent(events[i], write), other);
    }
  }

  lemma GetAfterAppend(events: seq<Event>, ev: Event, id: nat)
    ensures GetEvent(events + [ev], id) ==
            if GetEvent(events, id).Some? then GetEvent(events, id) else if ev.id == id then Some(ev) else None
  {
    assert (events + [ev])[..|events|] == events;
  }
}
