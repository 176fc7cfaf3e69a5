/** extension/plugins/moriningsummary_plugin.py: the morning message, made
    of today's calendar events, five random current tasks, a greeting, the
    date and a wish. The calendar and the tasks are the results of the
    Notion queries; today's date, the shuffled task order and the random
    choices are inputs. */
module MorningSummaryPlugin {
  import opened Wrappers
  import opened Strings
  import opened Clock
  import opened Actions
  import opened Tools
  import opened TextLists
  import opened Greetings
  import opened NotionQueries
  import CleanupPlugin

  const NAME: string := "MorningSummary"
  const MORNING_MESSAGE: ActionId := Method(NAME, "morning_message")
  const CLARIFY_SEND_TIME: ActionId := Method(NAME, "clarify_send_time")

  /** MORNING_MESSAGE_TIME of config.py. */
  const MORNING_MESSAGE_TIME: TimeOfDay := TimeOfDay(8, 10, 0)

  const CALENDAR_HEADER: string := "<b>События календаря:</b>"
  const TASKS_HEADER: string := "<b>5 случайных текущих задач:</b>"
  const TASKS_SHOWN: nat := 5

  /** The events whose dates can be printed: the date and time fields are
      in range, as they are for any Python `datetime`. */
  predicate ValidEvent(ev: CalendarEvent)
  {
    ValidDateTime(ev.start) && (ev.end.Some? ==> ValidDateTime(ev.end.value))
  }

  /** A time that is not on the hour 00:00 (`hour or minute`). */
  predicate HasClockTime(t: TimeOfDay)
  {
    t.hour != 0 || t.minute != 0
  }

  /** `_fmt_event_time`: the start date when there is an end, the start
      time unless it is 00:00, then the end date and the end time unless it
      is 00:00. */
  function FmtEventTime(ev: CalendarEvent): string
    requires ValidEvent(ev)
  {
    var result := if ev.end.Some? then DayMonthStr(ev.start.date) else "";
    var result := if HasClockTime(ev.start.time) then result + HourMinuteStr(ev.start.time) else result;
    if ev.end.Some? then
      var result := result + " —" + DayMonthStr(ev.end.value.date);
      if HasClockTime(ev.end.value.time) then result + HourMinuteStr(ev.end.value.time) else result
    else result
  }

  /** The length of each printed part; the result is empty exactly for an
      event without an end that starts at midnight; without an end no date
      is printed, and with one the start date comes first. */
  lemma FmtEventTimeShape(ev: CalendarEvent)
    requires ValidEvent(ev)
    ensures var r := FmtEventTime(ev);
            |r| == (if ev.end.Some? then 6 else 0) + (if HasClockTime(ev.start.time) then 6 else 0) +
                   (if ev.end.Some? then 8 + (if HasClockTime(ev.end.value.time) then 6 else 0) else 0) &&
            (r == "" <==> ev.end.None? && !HasClockTime(ev.start.time)) &&
            (ev.end.None? ==> r == "" || r == HourMinuteStr(ev.start.time)) &&
            (ev.end.Some? ==> StartsWith(r, DayMonthStr(ev.start.date)))
  {
    var r := FmtEventTime(ev);
    if ev.end.Some? {
      assert r[..6] == DayMonthStr(ev.start.date);
    }
  }

  /** Only digits, spaces, `:`, `/` and the dash are printed, so escaping
      leaves the times unchanged. */
  lemma FmtEventTimePlain(ev: CalendarEvent)
    requires ValidEvent(ev)
    ensures var r := FmtEventTime(ev);
            '&' !in r && '<' !in r && '>' !in r
  {
    DigitsPlain(ev.start.date);
    TimePlain(ev.start.time);
    var r0: string := if ev.end.Some? then DayMonthStr(ev.start.date) else "";
    var r1 := if HasClockTime(ev.start.time) then r0 + HourMinuteStr(ev.start.time) else r0;
    PlainConcat(r0, HourMinuteStr(ev.start.time));
    if ev.end.Some? {
      DigitsPlain(ev.end.value.date);
      TimePlain(ev.end.value.time);
      var r2 := r1 + " —" + DayMonthStr(ev.end.value.date);
      PlainConcat(r1, " —");
      PlainConcat(r1 + " —", DayMonthStr(ev.end.value.date));
      PlainConcat(r2, HourMinuteStr(ev.end.value.time));
      assert FmtEventTime(ev) == if HasClockTime(ev.end.value.time) then r2 + HourMinuteStr(ev.end.value.time) else r2;
    } else {
      assert FmtEventTime(ev) == r1;
    }
  }

  lemma PlainConcat(a: string, b: string)
    requires '&' !in a && '<' !in a && '>' !in a
    requires '&' !in b && '<' !in b && '>' !in b
    ensures '&' !in a + b && '<' !in a + b && '>' !in a + b
  {
  }

  lemma DigitsPlain(d: Date)
    requires ValidDate(d)
    ensures var s := DayMonthStr(d); '&' !in s && '<' !in s && '>' !in s
  {
    var a, b := Pad2(d.day), Pad2(d.month);
    assert DayMonthStr(d) == " " + a + "/" + b;
    assert forall k :: 0 <= k < 2 ==> IsDigit(a[k]) && IsDigit(b[k]);
  }

  lemma TimePlain(t: TimeOfDay)
    requires ValidTime(t)
    ensures var s := HourMinuteStr(t); '&' !in s && '<' !in s && '>' !in s
  {
    var a, b := Pad2(t.hour), Pad2(t.minute);
    assert HourMinuteStr(t) == " " + a + ":" + b;
    assert forall k :: 0 <= k < 2 ==> IsDigit(a[k]) && IsDigit(b[k]);
  }

  /** The test `_gather_base_summary` applies to each event: it starts
      today, or it started on or before today and ends today or later. */
  predicate Listed(ev: CalendarEvent, today: Date)
  {
    ev.start.date == today ||
    (!DateBefore(today, ev.start.date) && ev.end.Some? && !DateBefore(ev.end.value.date, today))
  }

  /** An event that does not end before it starts. */
  predicate Ordered(ev: CalendarEvent)
  {
    ev.end.Some? ==> !DateBefore(ev.end.value.date, ev.start.date)
  }

  /** For an event that does not end before it starts, the morning message
      lists it exactly when it has already started and the cleanup would
      not archive it. */
  lemma ListedIffStartedAndNotPassed(ev: CalendarEvent, today: Date)
    requires Ordered(ev)
    ensures Listed(ev, today) <==> !DateBefore(today, ev.start.date) && !CleanupPlugin.IsEventPassed(ev, today)
  {
  }

  /** `protect_for_html(' > ')`. */
  const BULLET: string := " &gt; "

  lemma BulletIsProtected()
    ensures ProtectForHtml(" > ") == BULLET
  {
    var sp, gt := " ", ">";
    ProtectForHtmlAppend(sp + gt, sp);
    ProtectForHtmlAppend(sp, gt);
    ProtectForHtmlUnchanged(sp);
    ProtectForHtmlChar('>');
    assert " > " == sp + gt + sp;
    assert BULLET == sp + "&gt;" + sp;
  }

  /** The escaped line of a listed event, written with the bullet already
      escaped; `EventLineIsProtected` shows it is
      `protect_for_html(' > ' + title + _fmt_event_time(event))`. */
  function EventLine(ev: CalendarEvent): string
    requires ValidEvent(ev)
  {
    BULLET + ProtectForHtml(ev.title) + FmtEventTime(ev)
  }

  lemma EventLineIsProtected(ev: CalendarEvent)
    requires ValidEvent(ev)
    ensures EventLine(ev) == ProtectForHtml(" > " + ev.title + FmtEventTime(ev))
  {
    BulletIsProtected();
    ProtectForHtmlAppend(" > " + ev.title, FmtEventTime(ev));
    ProtectForHtmlAppend(" > ", ev.title);
    FmtEventTimePlain(ev);
    ProtectForHtmlUnchanged(FmtEventTime(ev));
  }

  /** The events the summary lists, in calendar order. */
  function ListedEvents(calendar: seq<CalendarEvent>, today: Date): (listed: seq<CalendarEvent>)
    ensures |listed| <= |calendar|
    ensures forall j :: 0 <= j < |listed| ==> Listed(listed[j], today) && listed[j] in calendar
    decreases |calendar|
  {
    if calendar == [] then []
    else
      var init := calendar[..|calendar| - 1];
      var ev := calendar[|calendar| - 1];
      var prior := ListedEvents(init, today);
      assert forall j :: 0 <= j < |prior| ==> prior[j] in calendar by {
        assert forall e :: e in init ==> e in calendar;
      }
      prior + (if Listed(ev, today) then [ev] else [])
  }

  /** An event is listed iff it is in the calendar and passes the test. */
  lemma {:induction false} ListedEventsMembers(calendar: seq<CalendarEvent>, today: Date, ev: CalendarEvent)
    ensures ev in ListedEvents(calendar, today) <==> ev in calendar && Listed(ev, today)
    decreases |calendar|
  {
    if calendar != [] {
      var init := calendar[..|calendar| - 1];
      ListedEventsMembers(init, today, ev);
      assert calendar == init + [calendar[|calendar| - 1]];
    }
  }

  /** The escaped line of each event. */
  function EventLines(events: seq<CalendarEvent>): (lines: seq<string>)
    requires forall j :: 0 <= j < |events| ==> ValidEvent(events[j])
    ensures |lines| == |events|
    ensures forall j :: 0 <= j < |events| ==> lines[j] == EventLine(events[j])
  {
    seq(|events|, j requires 0 <= j < |events| => EventLine(events[j]))
  }

  predicate AllValid(calendar: seq<CalendarEvent>)
  {
    forall i :: 0 <= i < |calendar| ==> ValidEvent(calendar[i])
  }

  /** The calendar part of the summary: one line per listed event. */
  function ListedLines(calendar: seq<CalendarEvent>, today: Date): (lines: seq<string>)
    requires AllValid(calendar)
    ensures |lines| == |ListedEvents(calendar, today)|
  {
    var listed := ListedEvents(calendar, today);
    assert forall j :: 0 <= j < |listed| ==> ValidEvent(listed[j]);
    EventLines(listed)
  }

  /** The escaped line of a task, as `TaskLineIsProtected` shows. */
  function TaskLine(task: string): string
  {
    BULLET + ProtectForHtml(task)
  }

  lemma TaskLineIsProtected(task: string)
    ensures TaskLine(task) == ProtectForHtml(" > " + task)
  {
    BulletIsProtected();
    ProtectForHtmlAppend(" > ", task);
  }

  function TaskLines(tasks: seq<string>): (lines: seq<string>)
    ensures |lines| == |tasks|
    ensures forall i :: 0 <= i < |tasks| ==> lines[i] == TaskLine(tasks[i])
  {
    seq(|tasks|, i requires 0 <= i < |tasks| => TaskLine(tasks[i]))
  }

  /** `lines[-1] = lines[-1] + '\n'`. */
  function CloseLast(lines: seq<string>): (r: seq<string>)
    requires lines != []
    ensures |r| == |lines| && r[..|r| - 1] == lines[..|lines| - 1] && r[|r| - 1] == lines[|lines| - 1] + "\n"
  {
    lines[..|lines| - 1] + [lines[|lines| - 1] + "\n"]
  }

  /** Closing the last line of `a + b` closes the last line of `b`. */
  lemma CloseLastAppend(a: seq<string>, b: seq<string>)
    requires b != []
    ensures CloseLast(a + b) == a + CloseLast(b)
  {
    assert (a + b)[..|a + b| - 1] == a + b[..|b| - 1];
  }

  function Min(a: nat, b: nat): nat { if a <= b then a else b }

  /** The summary list for given event lines and task lines: the
      calendar header and the events with the last one closed, when there
      are events, then the tasks header and the tasks with the last line
      closed. */
  function Summary(events: seq<string>, tasks: seq<string>): seq<string>
  {
    (if events == [] then [] else [CALENDAR_HEADER] + CloseLast(events)) + CloseLast([TASKS_HEADER] + tasks)
  }

  /** The list `_gather_base_summary` returns for `shuffled`, the current
      tasks after `shuffle`. */
  function BaseSummary(calendar: seq<CalendarEvent>, shuffled: seq<string>, today: Date): seq<string>
    requires AllValid(calendar)
  {
    Summary(ListedLines(calendar, today), TaskLines(shuffled[..Min(TASKS_SHOWN, |shuffled|)]))
  }

  /** The layout of a summary: the header and closed event block when
      there are events, then the closed task block. */
  lemma SummaryShape(events: seq<string>, tasks: seq<string>)
    ensures var r := Summary(events, tasks);
            |r| == (if events == [] then 0 else |events| + 1) + 1 + |tasks| &&
            (r[0] == CALENDAR_HEADER <==> events != []) &&
            (events != [] ==> r[1..|events| + 1] == CloseLast(events)) &&
            r[|r| - |tasks| - 1..] == CloseLast([TASKS_HEADER] + tasks)
  {
    var taskPart := CloseLast([TASKS_HEADER] + tasks);
    var r := Summary(events, tasks);
    if events == [] {
      assert r == taskPart;
      assert r[0] == TASKS_HEADER || r[0] == TASKS_HEADER + "\n";
      assert r[0][3] != CALENDAR_HEADER[3];
    } else {
      var calPart := [CALENDAR_HEADER] + CloseLast(events);
      assert r == calPart + taskPart;
      assert r[1..|events| + 1] == calPart[1..];
    }
  }

  /** Some event is listed iff some event of the calendar passes the
      test. */
  lemma ListedEventsNonEmpty(calendar: seq<CalendarEvent>, today: Date)
    ensures ListedEvents(calendar, today) != [] <==> exists i :: 0 <= i < |calendar| && Listed(calendar[i], today)
  {
    var listed := ListedEvents(calendar, today);
    if listed == [] {
      forall i | 0 <= i < |calendar|
        ensures !Listed(calendar[i], today)
      {
        ListedEventsMembers(calendar, today, calendar[i]);
      }
    } else {
      ListedEventsMembers(calendar, today, listed[0]);
      var i :| 0 <= i < |calendar| && calendar[i] == listed[0];
    }
  }

  /** The calendar header opens the summary iff some event is listed, and
      the closed block of listed events follows it; the summary ends with
      the tasks header and at most five tasks, the first of the shuffled
      list in order, the last line closed by a newline. */
  lemma BaseSummaryShape(calendar: seq<CalendarEvent>, shuffled: seq<string>, today: Date)
    requires AllValid(calendar)
    ensures var r := BaseSummary(calendar, shuffled, today);
            var events := ListedLines(calendar, today);
            var n := Min(TASKS_SHOWN, |shuffled|);
            |r| == (if events == [] then 0 else |events| + 1) + 1 + n &&
            (r[0] == CALENDAR_HEADER <==> exists i :: 0 <= i < |calendar| && Listed(calendar[i], today)) &&
            (events != [] ==> r[1..|events| + 1] == CloseLast(events)) &&
            r[|r| - n - 1..] == CloseLast([TASKS_HEADER] + TaskLines(shuffled[..n]))
  {
    var n := Min(TASKS_SHOWN, |shuffled|);
    SummaryShape(ListedLines(calendar, today), TaskLines(shuffled[..n]));
    ListedEventsNonEmpty(calendar, today);
  }

  class MorningSummary {
    var sendDtime: DateTime

    constructor ()
      ensures sendDtime == DtFromTime(MORNING_MESSAGE_TIME)
    {
      sendDtime := DtFromTime(MORNING_MESSAGE_TIME);
    }

    predicate Valid()
      reads this
    {
      ValidTime(sendDtime.time)
    }

    /** `daily_events`: the morning message at the send time. */
    function DailyEvents(): seq<(DateTime, ActionId)>
      reads this
    {
      [(sendDtime, MORNING_MESSAGE)]
    }

    /** The first loop of `_gather_base_summary`: the escaped lines of
        the listed events. */
    method CollectEventLines(calendar: seq<CalendarEvent>, today: Date) returns (events: seq<string>)
      requires AllValid(calendar)
      ensures events == ListedLines(calendar, today)
    {
      events := [];
      var i := 0;
      while i < |calendar|
        invariant 0 <= i <= |calendar|
        invariant events == ListedLines(calendar[..i], today)
      {
        var event := calendar[i];
        ghost var prior := ListedEvents(calendar[..i], today);
        assert calendar[..i + 1][..i] == calendar[..i];
        assert ListedEvents(calendar[..i + 1], today) == prior + (if Listed(event, today) then [event] else []);
        if Listed(event, today) {
          events := events + [EventLine(event)];
        }
        i := i + 1;
      }
      assert calendar[..i] == calendar;
    }

    /** The second loop of `_gather_base_summary`: one escaped line per
        shown task, appended in order. */
    method AppendTaskLines(head: seq<string>, shown: seq<string>) returns (lines: seq<string>)
      ensures lines == head + TaskLines(shown)
    {
      lines := head;
      var k := 0;
      while k < |shown|
        invariant 0 <= k <= |shown|
        invariant lines == head + TaskLines(shown[..k])
      {
        assert TaskLines(shown[..k + 1]) == TaskLines(shown[..k]) + [TaskLine(shown[k])];
        lines := lines + [TaskLine(shown[k])];
        k := k + 1;
      }
      assert shown[..k] == shown;
    }

    /** The rest of `_gather_base_summary` once the event lines are
        collected: the calendar block, then the tasks header and the shown
        tasks, the last line closed. */
    method FinishSummary(events: seq<string>, shown: seq<string>) returns (lines: seq<string>)
      ensures lines == Summary(events, TaskLines(shown))
    {
      lines := [];
      var calendarBlock := events;
      if calendarBlock != [] {
        lines := lines + [CALENDAR_HEADER];
        calendarBlock := calendarBlock[..|calendarBlock| - 1] + [calendarBlock[|calendarBlock| - 1] + "\n"];
        lines := lines + calendarBlock;
      }
      ghost var calPart := lines;
      lines := lines + [TASKS_HEADER];
      lines := AppendTaskLines(lines, shown);
      assert lines == calPart + ([TASKS_HEADER] + TaskLines(shown));
      CloseLastAppend(calPart, [TASKS_HEADER] + TaskLines(shown));
      lines := lines[..|lines| - 1] + [lines[|lines| - 1] + "\n"];
    }

    /** `_gather_base_summary`. */
    method GatherBaseSummary(calendar: seq<CalendarEvent>, shuffled: seq<string>, today: Date) returns (lines: seq<string>)
      requires AllValid(calendar)
      ensures lines == BaseSummary(calendar, shuffled, today)
    {
      var events := CollectEventLines(calendar, today);
      lines := FinishSummary(events, shuffled[..Min(TASKS_SHOWN, |shuffled|)]);
    }

    /** `morning_message`: the summary, then the greeting and date line in
        front and a wish at the end, joined by newlines. `greeting` and
        `wish` carry the two random choices and the clock. */
    method MorningMessage(calendar: seq<CalendarEvent>, shuffled: seq<string>, today: Date, greeting: Env, wish: Env)
      returns (r: ActionResult)
      requires AllValid(calendar)
      ensures r == MessageResult(Join(MorningLines(calendar, shuffled, today, greeting, wish), "\n"))
    {
      var messageData := GatherBaseSummary(calendar, shuffled, today);
      var message := new TextList(messageData);
      SayGoodmorning(message, greeting);
      WishGoodday(message, wish);
      r := MessageResult(Join(message.items, "\n"));
    }

    /** `clarify_send_time`: without arguments the current send time, else
        `set_send_time`. */
    method ClarifySendTime(args: seq<string>) returns (r: Outcome)
      requires Valid()
      modifies this
      ensures Valid()
      ensures args == [] ==> r == Returned(MessageResult(TimeStr(sendDtime.time))) && sendDtime == old(sendDtime)
      ensures args != [] ==> SetSendTimeEffect(args, old(sendDtime), sendDtime, r)
    {
      if |args| < 1 {
        return Returned(MessageResult(TimeStr(sendDtime.time)));
      }
      r := SetSendTime(args);
    }

    /** `set_send_time`: bad arguments are answered with the error text
        and change nothing, the OverflowError of `time()` escapes and
        changes nothing; otherwise the send time moves. */
    method SetSendTime(args: seq<string>) returns (r: Outcome)
      requires Valid()
      modifies this
      ensures Valid()
      ensures SetSendTimeEffect(args, old(sendDtime), sendDtime, r)
    {
      var newTime := TimeFromArgs(args);
      if newTime.TimeOverflow? {
        return Raised;
      }
      if newTime.TimeError? {
        return Returned(MessageResult(newTime.message));
      }
      sendDtime := DtFromTime(newTime.time);
      r := Returned(MessageResult("New morning message time: " + TimeStr(sendDtime.time)));
    }
  }

  /** What one `set_send_time` does to the send time and what it answers. */
  predicate SetSendTimeEffect(args: seq<string>, before: DateTime, after: DateTime, r: Outcome)
  {
    match TimeFromArgs(args)
    case TimeOverflow => after == before && r == Raised
    case TimeError(text) => after == before && r == Returned(MessageResult(text))
    case TimeOk(t) => after == DtFromTime(t) && r == Returned(MessageResult("New morning message time: " + TimeStr(t)))
  }

  /** The lines of the morning message, before joining. */
  function MorningLines(calendar: seq<CalendarEvent>, shuffled: seq<string>, today: Date, greeting: Env, wish: Env): seq<string>
    requires AllValid(calendar)
  {
    WishSpec(GoodmorningSpec(BaseSummary(calendar, shuffled, today), greeting), wish)
  }

  /** The message is a greeting, the date line, the base summary in order
      and one wish, chosen from a pool sized by the summary plus the two
      greeting lines. */
  lemma MorningLinesShape(calendar: seq<CalendarEvent>, shuffled: seq<string>, today: Date, greeting: Env, wish: Env)
    requires AllValid(calendar)
    ensures var summary := BaseSummary(calendar, shuffled, today);
            var m := MorningLines(calendar, shuffled, today, greeting, wish);
            |m| == |summary| + 3 && m[0] in GOOD_MORNING_PHRASES && m[1] == DateLine(greeting.dateText) &&
            m[2..|m| - 1] == summary && m[|m| - 1] in WishPool(|summary| + 2, wish.weekday)
  {
    var summary := BaseSummary(calendar, shuffled, today);
    var g := GoodmorningSpec(summary, greeting);
    GoodmorningSpecShape(summary, greeting);
    WishSpecShape(g, wish);
    var m := MorningLines(calendar, shuffled, today, greeting, wish);
    assert m[..|g|] == g;
    assert m[2..|m| - 1] == g[2..];
  }

  /** A scenario: a new plugin answers `/morning_sendtime` without
      arguments with 08:10:00, and after `/morning_sendtime 7 0 0` its
      daily event is at 07:00:00. */
  method SendTimeScenario() returns (first: Outcome, events: seq<(DateTime, ActionId)>)
    ensures first == Returned(MessageResult("08:10:00"))
    ensures events == [(DtFromTime(TimeOfDay(7, 0, 0)), MORNING_MESSAGE)]
  {
    var p := new MorningSummary();
    first := p.ClarifySendTime([]);
    assert DigitChar(8) == '8' && DigitChar(1) == '1' && DigitChar(0) == '0';
    assert NatToString(8) == "8" && NatToString(1) == "1" && NatToString(0) == "0";
    assert NatToString(10) == NatToString(1) + [DigitChar(0)] == "10";
    assert Pad2(8) == "08" && Pad2(10) == "10" && Pad2(0) == "00";
    assert TimeStr(MORNING_MESSAGE_TIME) == "08:10:00";
    TimeFromArgsRoundTrip(TimeOfDay(7, 0, 0), []);
    assert [IntToString(7), IntToString(0), IntToString(0)] + [] == ["7", "0", "0"];
    var second := p.ClarifySendTime(["7", "0", "0"]);
    events := p.DailyEvents();
  }

  function UserCommands(): seq<(string, ActionId)>
  {
    [("morning", MORNING_MESSAGE), ("morning_sendtime", CLARIFY_SEND_TIME)]
  }

  function MonthlyEvents(): seq<(DateTime, ActionId)> { [] }
  function DisorderedEvents(): seq<(DateTime, ActionId)> { [] }

  /** Two commands with distinct names, one showing the message and one
      for the send time; no monthly or one-off events. */
  lemma Declarations()
    ensures |UserCommands()| == 2 && UserCommands()[0].0 != UserCommands()[1].0
    ensures UserCommands()[0].1 == MORNING_MESSAGE && UserCommands()[1].1 == CLARIFY_SEND_TIME
    ensures MonthlyEvents() == [] && DisorderedEvents() == []
  {
  }
}
