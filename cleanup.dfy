/** extension/plugins/cleanup_plugin.py: `/rm_past_events` archives every
    calendar event that is over. */
module CleanupPlugin {
  import opened Wrappers
  import opened Strings
  import opened Clock
  import opened Actions
  import opened NotionQueries

  const NAME: string := "CalenarCleanup"
  const REMOVE_PAST_EVENTS: ActionId := Method(NAME, "remove_past_events")

  /** `_is_event_passed`: an event with an end is over when its end date
      is before today; one without an end when its start date is. */
  predicate IsEventPassed(ev: CalendarEvent, today: Date)
  {
    (ev.end.Some? && DateBefore(ev.end.value.date, today)) || (ev.end.None? && DateBefore(ev.start.date, today))
  }

  /** With an end, only the end counts; the start is ignored. */
  lemma PassedByEnd(ev: CalendarEvent, today: Date, otherStart: DateTime)
    requires ev.end.Some?
    ensures IsEventPassed(ev, today) <==> DateBefore(ev.end.value.date, today)
    ensures IsEventPassed(ev, today) == IsEventPassed(ev.(start := otherStart), today)
  {
  }

  /** The comparison is strict: an event that ends today, or starts today
      and has no end, has not passed; one that ended yesterday has. */
  lemma TodayIsNotPast(ev: CalendarEvent, today: Date)
    requires ValidDate(today)
    ensures ev.end.Some? && ev.end.value.date == today ==> !IsEventPassed(ev, today)
    ensures ev.end.None? && ev.start.date == today ==> !IsEventPassed(ev, today)
    ensures ev.end.Some? ==> IsEventPassed(ev.(end := Some(ev.end.value.(date := today))), NextDate(today))
  {
  }

  /** The ids of the passed events, in calendar order. */
  function PassedIds(events: seq<CalendarEvent>, today: Date): (ids: seq<string>)
    ensures |ids| <= |events|
    decreases |events|
  {
    if events == [] then []
    else
      var k := |events| - 1;
      PassedIds(events[..k], today) + (if IsEventPassed(events[k], today) then [events[k].id] else [])
  }

  /** Archiving a longer calendar archives the earlier events first. */
  lemma {:induction false} PassedIdsAppend(a: seq<CalendarEvent>, b: seq<CalendarEvent>, today: Date)
    ensures PassedIds(a + b, today) == PassedIds(a, today) + PassedIds(b, today)
    decreases |b|
  {
    if b == [] {
      assert a + b == a;
    } else {
      var k := |b| - 1;
      assert (a + b)[..|a + b| - 1] == a + b[..k];
      PassedIdsAppend(a, b[..k], today);
    }
  }

  /** An id is archived iff some passed event carries it. */
  lemma {:induction false} PassedIdsMembers(events: seq<CalendarEvent>, today: Date, id: string)
    ensures id in PassedIds(events, today) <==> exists i :: 0 <= i < |events| && events[i].id == id && IsEventPassed(events[i], today)
    decreases |events|
  {
    if events != [] {
      var k := |events| - 1;
      PassedIdsMembers(events[..k], today, id);
      assert forall i :: 0 <= i < k ==> events[..k][i] == events[i];
    }
  }

  /** The positions of the passed events in the calendar. */
  function PassedPositions(events: seq<CalendarEvent>, today: Date): set<int>
  {
    set i | 0 <= i < |events| && IsEventPassed(events[i], today)
  }

  /** The number of passed events: how many positions hold one. */
  function CountPassed(events: seq<CalendarEvent>, today: Date): nat
  {
    |PassedPositions(events, today)|
  }

  /** One archive call per passed event. */
  lemma {:induction false} PassedIdsCount(events: seq<CalendarEvent>, today: Date)
    ensures |PassedIds(events, today)| == CountPassed(events, today)
    decreases |events|
  {
    if events == [] {
      assert PassedPositions(events, today) == {};
    } else {
      var k := |events| - 1;
      PassedIdsCount(events[..k], today);
      var before := PassedPositions(events[..k], today);
      var last: set<int> := if IsEventPassed(events[k], today) then {k} else {};
      assert forall i :: 0 <= i < k ==> events[..k][i] == events[i];
      assert PassedPositions(events, today) == before + last;
      assert k !in before;
    }
  }

  function RemovedMessage(deleted: nat): string
  {
    NatToString(deleted) + " past events have been deleted!"
  }

  /** `remove_past_events` over the fetched calendar on `today`; `archived`
      lists the `archive_page` calls in the order they are made. */
  method RemovePastEvents(events: seq<CalendarEvent>, today: Date) returns (archived: seq<string>, r: ActionResult)
    ensures archived == PassedIds(events, today)
    ensures r == MessageResult(RemovedMessage(CountPassed(events, today)))
  {
    archived := [];
    var deleted := 0;
    var i := 0;
    while i < |events|
      invariant 0 <= i <= |events|
      invariant archived == PassedIds(events[..i], today)
      invariant deleted == |archived|
    {
      var ev := events[i];
      assert events[..i + 1][..i] == events[..i];
      if IsEventPassed(ev, today) {
        archived := archived + [ev.id];
        deleted := deleted + 1;
      }
      i := i + 1;
    }
    assert events[..i] == events;
    PassedIdsCount(events, today);
    r := MessageResult(RemovedMessage(deleted));
  }

  function UserCommands(): seq<(string, ActionId)>
  {
    [("rm_past_events", REMOVE_PAST_EVENTS)]
  }

  function DailyEvents(): seq<(DateTime, ActionId)> { [] }
  function MonthlyEvents(): seq<(DateTime, ActionId)> { [] }
  function DisorderedEvents(): seq<(DateTime, ActionId)> { [] }

  /** One command, bound to `remove_past_events`, and no events. */
  lemma Declarations()
    ensures |UserCommands()| == 1 && UserCommands()[0] == ("rm_past_events", REMOVE_PAST_EVENTS)
    ensures DailyEvents() == [] && MonthlyEvents() == [] && DisorderedEvents() == []
  {
  }
}
