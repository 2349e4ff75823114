/**
 * The client-side event log (src/stores/eventStore.ts): events are
 * appended with an id from a counter that only grows, and the log keeps the
 * newest 5000. The counter lives outside the store's state, so `clear`
 * does not reset it. The time stamp (`new Date().toISOString()`) is a
 * parameter.
 */
module EventStore {
  import opened Optional
  import opened Strings
  import opened Types

  /** `MAX_EVENTS`. */
  const MaxEvents := 5000

  datatype EventKind = Info | Warning | Error | Success

  /** `EventLogItem`. */
  datatype EventItem = EventItem(id: string, timestamp: string, kind: EventKind, role: Option<AgentRole>, message: string)

  /** `evt-${n}`. */
  function EventId(n: nat): string
  {
    "evt-" + NatToString(n)
  }

  lemma EventIdInjective(a: nat, b: nat)
    requires EventId(a) == EventId(b)
    ensures a == b
  {
    var p := "evt-";
    assert EventId(a)[|p|..] == NatToString(a);
    assert EventId(b)[|p|..] == NatToString(b);
    NatToStringInjective(a, b);
  }

  /** `events.slice(-MAX_EVENTS)` once the list is over the limit. */
  function Trimmed(events: seq<EventItem>): (r: seq<EventItem>)
    ensures |r| <= MaxEvents
    ensures |events| <= MaxEvents ==> r == events
    ensures |events| > MaxEvents ==> |r| == MaxEvents
    ensures r == events[|events| - |r|..]
  {
    if |events| > MaxEvents then events[|events| - MaxEvents..] else events
  }

  /** Ids made from strictly increasing counter values. */
  ghost predicate Numbered(events: seq<EventItem>, nums: seq<nat>, counter: nat)
  {
    && |nums| == |events|
    && (forall i :: 0 <= i < |events| ==> events[i].id == EventId(nums[i]) && 1 <= nums[i] <= counter)
    && (forall i, j :: 0 <= i < j < |nums| ==> nums[i] < nums[j])
  }

  /** Ids from strictly increasing counter values are pairwise distinct. */
  lemma NumberedIdsDistinct(events: seq<EventItem>, nums: seq<nat>, counter: nat)
    requires Numbered(events, nums, counter)
    ensures forall i, j :: 0 <= i < j < |events| ==> events[i].id != events[j].id
  {
    forall i, j | 0 <= i < j < |events|
      ensures events[i].id != events[j].id
    {
      if events[i].id == events[j].id {
        EventIdInjective(nums[i], nums[j]);
      }
    }
  }

  class EventLog {
    var events: seq<EventItem>
    /** `eventCounter`, at module level in the source. */
    var eventCounter: nat
    /** The counter value behind each event's id. */
    ghost var nums: seq<nat>

    /** At most MAX_EVENTS events, whose ids were drawn from the counter in order. */
    ghost predicate Valid()
      reads this
    {
      |events| <= MaxEvents && Numbered(events, nums, eventCounter)
    }

    constructor()
      ensures Valid() && events == [] && eventCounter == 0
    {
      events := [];
      eventCounter := 0;
      nums := [];
    }

    /** `addEvent`: the new event goes last, and the oldest one goes if the log is then over the limit. */
    method AddEvent(kind: EventKind, role: Option<AgentRole>, message: string, timestamp: string)
      requires Valid()
      modifies this
      ensures Valid()
      ensures eventCounter == old(eventCounter) + 1
      ensures events == Trimmed(old(events) + [EventItem(EventId(eventCounter), timestamp, kind, role, message)])
      ensures events[|events| - 1] == EventItem(EventId(eventCounter), timestamp, kind, role, message)
      ensures |old(events)| < MaxEvents ==> events == old(events) + [events[|events| - 1]]
      ensures |old(events)| == MaxEvents ==> events == old(events)[1..] + [events[|events| - 1]]
      ensures forall i, j :: 0 <= i < j < |events| ==> events[i].id != events[j].id
    {
      eventCounter := eventCounter + 1;
      var added := EventItem(EventId(eventCounter), timestamp, kind, role, message);
      var all := events + [added];
      var allNums := nums + [eventCounter];
      if |all| > MaxEvents {
        events := all[|all| - MaxEvents..];
        nums := allNums[|allNums| - MaxEvents..];
      } else {
        events := all;
        nums := allNums;
      }
      NumberedIdsDistinct(events, nums, eventCounter);
    }

    /** `clear`: the log empties, and the counter keeps its value. */
    method Clear()
      requires Valid()
      modifies this
      ensures Valid() && events == [] && eventCounter == old(eventCounter)
    {
      events := [];
      nums := [];
    }
  }

  /** Distinct counter values give distinct ids, so an id issued after a clear differs from every earlier one. */
  lemma IdsNeverRepeat(a: nat, b: nat)
    requires a < b
    ensures EventId(a) != EventId(b)
  {
    if EventId(a) == EventId(b) {
      EventIdInjective(a, b);
    }
  }
}
