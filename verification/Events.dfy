/** Events and the lock rule (backend/internal/events/service.go, handler.go). */
module Events {
  import opened Faults
  import opened Options

  datatype Event = Event(startsAt: int, endsAt: int)

  /** The single source of truth for the lock. At exactly `endsAt` the event is over. */
  predicate IsOver(e: Event, now: int) {
    !(now < e.endsAt)
  }

  /** "Current" is the event created last; `events` is in creation order. */
  function Current(events: seq<Event>): Option<Event> {
    if events == [] then None else Some(events[|events| - 1])
  }

  datatype CreateReply = EventCreated | InvalidTimes | StillRunning | Failed

  /** `Create`: refuse a backwards interval, refuse while the current event runs, else append. */
  function CreateEvent(events: seq<Event>, startsAt: int, endsAt: int, now: int): (CreateReply, seq<Event>) {
    if !(endsAt > startsAt) then (InvalidTimes, events)
    else if Current(events).Some? && !IsOver(Current(events).value, now) then (StillRunning, events)
    else (EventCreated, events + [Event(startsAt, endsAt)])
  }

  /** Every event but the latest is over. */
  ghost predicate PastIsOver(events: seq<Event>, now: int) {
    forall i | 0 <= i < |events| - 1 :: IsOver(events[i], now)
  }

  /** The lock's invariant survives the clock and `Create`, and a refused `Create` changes nothing. */
  lemma PastStaysOver(events: seq<Event>, now: int, later: int, startsAt: int, endsAt: int)
    requires PastIsOver(events, now) && now <= later
    ensures PastIsOver(events, later)
    ensures PastIsOver(CreateEvent(events, startsAt, endsAt, now).1, now)
  {
    var next := CreateEvent(events, startsAt, endsAt, now).1;
    forall i | 0 <= i < |next| - 1 ensures IsOver(next[i], now) {
      assert i == |events| - 1 ==> Current(events) == Some(events[i]);
    }
  }

  /** The events table and the users' active events, as `Create` and `Current` use them. */
  class EventsHandler {
    var events: seq<Event>
    var activeEvent: map<string, nat>

    ghost predicate Valid(now: int)
      reads this
    {
      PastIsOver(events, now)
    }

    constructor ()
      ensures events == [] && activeEvent == map[]
      ensures forall now :: Valid(now)
    {
      events, activeEvent := [], map[];
    }

    /** The event created last is the only one that can be running. */
    method GetCurrentEvent(ghost now: int) returns (current: Option<Event>)
      requires Valid(now)
      ensures current.None? <==> events == []
      ensures current.Some? ==> current.value == events[|events| - 1]
      ensures forall i | 0 <= i < |events| && now < events[i].endsAt :: current == Some(events[i])
    {
      current := if |events| == 0 then None else Some(events[|events| - 1]);
    }

    /**
     * `loadOk`, `insert` and `activeOk` are how the three queries go. An error may leave the event
     * behind without its creator's active event, but never a second running one.
     */
    method Create(user: string, startsAt: int, endsAt: int, now: int, loadOk: bool, insert: Fault, activeOk: bool)
      returns (reply: CreateReply)
      requires Valid(now)
      modifies this
      ensures Valid(now)
      ensures loadOk && insert.Fine? && activeOk ==> (reply, events) == CreateEvent(old(events), startsAt, endsAt, now)
      ensures events == old(events) || (loadOk && events == CreateEvent(old(events), startsAt, endsAt, now).1)
      ensures reply.EventCreated? ==> events == old(events) + [Event(startsAt, endsAt)]
      ensures activeEvent == if reply.EventCreated? then old(activeEvent)[user := |old(events)|] else old(activeEvent)
      ensures reply.InvalidTimes? <==> endsAt <= startsAt
      ensures reply.StillRunning? ==> events == old(events) && exists i :: 0 <= i < |events| && now < events[i].endsAt
      ensures reply.EventCreated? ==> forall i | 0 <= i < |old(events)| :: old(events)[i].endsAt <= now
      ensures loadOk && insert.Fine? && activeOk ==>
                (reply.EventCreated? <==>
                   startsAt < endsAt && forall i | 0 <= i < |old(events)| :: old(events)[i].endsAt <= now)
    {
      PastStaysOver(events, now, now, startsAt, endsAt);
      if !(endsAt > startsAt) {
        return InvalidTimes;
      }
      if !loadOk {
        return Failed;
      }
      var current := GetCurrentEvent(now);
      if current.Some? && !IsOver(current.value, now) {
        return StillRunning;
      }
      if !insert.Clean? {
        events := events + [Event(startsAt, endsAt)];
      }
      if !insert.Fine? || !activeOk {
        return Failed;
      }
      activeEvent := activeEvent[user := |events| - 1];
      return EventCreated;
    }
  }
}
