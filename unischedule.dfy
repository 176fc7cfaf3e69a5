/** extension/plugins/uni_schedule_plugin.py: the university timetable for
    a day, sent at two configurable times, the evening one switchable. The
    timetable rows are an input (already sorted); so are the clock and the
    text wrapping of each row. */
module UniSchedulePlugin {
  import opened Wrappers
  import opened Strings
  import opened Clock
  import opened Actions
  import opened Tools
  import opened NotionQueries
  import Dispatch

  const NAME: string := "UniSchedule"
  const TODAY: ActionId := Method(NAME, "today")
  const YESTERDAY: ActionId := Method(NAME, "yesterday")
  const TOMORROW: ActionId := Method(NAME, "tomorrow")
  const TOMORROW_AUTOSEND: ActionId := Method(NAME, "tomorrow_autosend")
  const SET_SENDING_TIME: ActionId := Method(NAME, "set_sending_time")
  const SET_TM_SENDING_TIME: ActionId := Method(NAME, "set_tm_sending_time")
  const TOGGLE_SEND_TOMORROW: ActionId := Method(NAME, "toggle_send_tomorrow")

  /** TODAY_SCHED_TIME and TOMMOROW_SCHED_TIME of config.py. */
  const TODAY_SCHED_TIME: TimeOfDay := TimeOfDay(8, 10, 15)
  const TOMMOROW_SCHED_TIME: TimeOfDay := TimeOfDay(22, 30, 10)

  const TOGGLE_ON_REPLY: string := "enabled auto sending schedule for tommorow"
  const TOGGLE_OFF_REPLY: string := "diabled auto sending schedule for tommorow"
  const TOGGLE_INVALID_REPLY: string := "invalid arguments, use `on` or `off`"
  const RELOAD_HINT: string := "\nPlease, reload daily events to apply this change"

  // ---------------------------------------------------------------------
  // form_schedule_message

  /** A `%`-format of left-aligned `%-Ns` fields: each field is its text
      padded on the right to its width, then the literal that follows it
      in the format string. */
  function PadFields(fields: seq<(string, nat, string)>): string
    decreases |fields|
  {
    if fields == [] then "" else PadRight(fields[0].0, fields[0].1) + fields[0].2 + PadFields(fields[1..])
  }

  /** The column header `"%-2s %-5s %-7s %-20s"` of the four titles. */
  const HEADER: string := PadRight("#", 2) + " " + PadRight("нач.", 5) + " " + PadRight("каб.", 7) + " " + PadRight("предмет", 20)
  const RULE: string := Repeat('-', 38)
  /** The "now" marker line, escaped. */
  const MARKER: string := ProtectForHtml(">" + RepeatString("- ", 18) + "<")

  /** The start of a row's pair, `time(*pair_time[1])`. */
  function StartTime(e: ScheduleEntry): TimeOfDay
  {
    TimeOfDay(e.slot.start.0, e.slot.start.1, 0)
  }

  /** The index of the first row that starts later than `now`. */
  function FirstLater(rows: seq<ScheduleEntry>, now: TimeOfDay): (r: Option<nat>)
    ensures r.Some? ==> r.value < |rows| && TimeBefore(now, StartTime(rows[r.value]))
    ensures r.Some? ==> forall j :: 0 <= j < r.value ==> !TimeBefore(now, StartTime(rows[j]))
    ensures r.None? ==> forall j :: 0 <= j < |rows| ==> !TimeBefore(now, StartTime(rows[j]))
    decreases |rows|
  {
    if rows == [] then None
    else if TimeBefore(now, StartTime(rows[0])) then Some(0)
    else
      var rest := FirstLater(rows[1..], now);
      assert forall j :: 1 <= j < |rows| ==> rows[j] == rows[1..][j - 1];
      if rest.None? then None else Some(rest.value + 1)
  }

  /** The escaped one-line form of a row, `"%-2s %-2s:%-2s %-7s %-20s"` of
      the pair number, the start hour and minute, the room and the
      subject, before it is wrapped. */
  function RowLine(e: ScheduleEntry): string
  {
    ProtectForHtml(PadFields([(IntToString(e.pair), 2, " "), (IntToString(e.slot.start.0), 2, ":"),
                              (IntToString(e.slot.start.1), 2, " "), (e.room, 7, " "), (e.subject, 20, "")]))
  }

  /** One row's lines, preceded by the marker when it is the marked row,
      joined by newlines and closed by one. */
  function Block(lines: seq<string>, marked: bool): string
  {
    Join((if marked then [MARKER] else []) + lines, "\n") + "\n"
  }

  /** The loop of `form_schedule_message` over the sorted `rows` at the
      time of day `now`, for any `lines` giving the escaped, wrapped lines
      of one row: the header and rule come first, then one block per row
      in order, and only the first row that starts after `now` carries the
      marker. */
  method FormBlocks(rows: seq<ScheduleEntry>, now: TimeOfDay, lines: ScheduleEntry -> seq<string>) returns (message: seq<string>)
    ensures |message| == |rows| + 2 && message[0] == HEADER && message[1] == RULE
    ensures forall i :: 0 <= i < |rows| ==> message[i + 2] == Block(lines(rows[i]), FirstLater(rows, now) == Some(i))
  {
    message := [HEADER, RULE];
    var timelineFlag := true;
    var i := 0;
    while i < |rows|
      invariant 0 <= i <= |rows|
      invariant |message| == i + 2 && message[0] == HEADER && message[1] == RULE
      invariant timelineFlag <==> forall j :: 0 <= j < i ==> !TimeBefore(now, StartTime(rows[j]))
      invariant forall k :: 0 <= k < i ==> message[k + 2] == Block(lines(rows[k]), FirstLater(rows, now) == Some(k))
    {
      var messageLine := lines(rows[i]);
      assert [] + messageLine == messageLine;
      var marked := TimeBefore(now, StartTime(rows[i])) && timelineFlag;
      if marked {
        messageLine := [MARKER] + messageLine;
        timelineFlag := false;
      }
      assert marked <==> FirstLater(rows, now) == Some(i);
      assert Join(messageLine, "\n") + "\n" == Block(lines(rows[i]), marked);
      message := message + [Join(messageLine, "\n") + "\n"];
      i := i + 1;
    }
  }

  /** `form_schedule_message`: `wrap` is `textwrap.wrap` at width 38 with
      a 17-space indent, applied to each row's escaped line. */
  method FormScheduleMessage(rows: seq<ScheduleEntry>, now: TimeOfDay, wrap: string -> seq<string>) returns (message: seq<string>, text: string)
    ensures |message| == |rows| + 2 && message[0] == HEADER && message[1] == RULE
    ensures forall i :: 0 <= i < |rows| ==> message[i + 2] == Block(wrap(RowLine(rows[i])), FirstLater(rows, now) == Some(i))
    ensures text == "<pre>" + Join(message, "\n") + "</pre>"
  {
    message := FormBlocks(rows, now, e => wrap(RowLine(e)));
    text := "<pre>" + Join(message, "\n") + "</pre>";
  }

  /** If any row starts after now, some row is marked. */
  lemma MarkerWhenLaterRow(rows: seq<ScheduleEntry>, now: TimeOfDay, k: nat)
    requires k < |rows| && TimeBefore(now, StartTime(rows[k]))
    ensures FirstLater(rows, now).Some? && FirstLater(rows, now).value <= k
  {
  }

  function TodayResult(schedule: string): ActionResult { MessageResult("Расписание на сегодня:\n" + schedule) }
  function TomorrowResult(schedule: string): ActionResult { MessageResult("Расписание на завтра:\n" + schedule) }
  function YesterdayResult(schedule: string): ActionResult { MessageResult("Вчерашнее расписание:\n" + schedule) }

  /** `toggle_send_tomorrow` accepts exactly one argument, "on" or "off" in
      any case. */
  predicate ToggleArg(args: seq<string>, word: string)
  {
    |args| == 1 && AsciiUpper(args[0]) == word
  }

  class UniSchedule {
    var tdSendTime: TimeOfDay
    var tmSendEnabled: bool
    var tmSendTime: TimeOfDay

    /** A new plugin sends tomorrow's schedule and uses the given times. */
    constructor (tdScheduleSend: TimeOfDay := TODAY_SCHED_TIME, tomScheduleSend: TimeOfDay := TOMMOROW_SCHED_TIME)
      ensures tdSendTime == tdScheduleSend && tmSendEnabled && tmSendTime == tomScheduleSend
    {
      tdSendTime := tdScheduleSend;
      tmSendEnabled := true;
      tmSendTime := tomScheduleSend;
    }

    /** `daily_events`: today's schedule at the first time, tomorrow's
        autosend at the second. */
    function DailyEvents(): seq<(DateTime, ActionId)>
      reads this
    {
      [(DtFromTime(tdSendTime), TODAY), (DtFromTime(tmSendTime), TOMORROW_AUTOSEND)]
    }

    /** `tomorrow_autosend` given the text tomorrow's schedule would have. */
    function TomorrowAutosend(schedule: string): (r: ActionResult)
      reads this
      ensures tmSendEnabled ==> r == TomorrowResult(schedule)
      ensures !tmSendEnabled ==> r.message.None? && r.nextDatetime.None? && r.nextAction.None?
    {
      if tmSendEnabled then TomorrowResult(schedule) else EmptyResult()
    }

    method ToggleSendTomorrow(args: seq<string>) returns (r: ActionResult)
      modifies this
      ensures ToggleArg(args, "ON") ==> tmSendEnabled && r == MessageResult(TOGGLE_ON_REPLY)
      ensures ToggleArg(args, "OFF") ==> !tmSendEnabled && r == MessageResult(TOGGLE_OFF_REPLY)
      ensures !ToggleArg(args, "ON") && !ToggleArg(args, "OFF") ==>
                tmSendEnabled == old(tmSendEnabled) && r == MessageResult(TOGGLE_INVALID_REPLY)
      ensures tdSendTime == old(tdSendTime) && tmSendTime == old(tmSendTime)
    {
      if 0 < |args| < 2 {
        var word := AsciiUpper(args[0]);
        if word == "ON" {
          tmSendEnabled := true;
          return MessageResult(TOGGLE_ON_REPLY);
        } else if word == "OFF" {
          tmSendEnabled := false;
          return MessageResult(TOGGLE_OFF_REPLY);
        }
      }
      r := MessageResult(TOGGLE_INVALID_REPLY);
    }

    /** `set_sending_time`: bad arguments are answered with the error text
        and change nothing, the OverflowError of `time()` escapes and
        changes nothing; a time replaces today's send time only. */
    method SetSendingTime(args: seq<string>) returns (r: Outcome)
      modifies this
      ensures TimeFromArgs(args).TimeOverflow? ==> r == Raised && tdSendTime == old(tdSendTime)
      ensures TimeFromArgs(args).TimeError? ==>
                r == Returned(MessageResult(TimeFromArgs(args).message)) && tdSendTime == old(tdSendTime)
      ensures TimeFromArgs(args).TimeOk? ==>
                tdSendTime == TimeFromArgs(args).time &&
                r == Returned(MessageResult("New schedule send time:" + TimeStr(TimeFromArgs(args).time) + RELOAD_HINT))
      ensures tmSendEnabled == old(tmSendEnabled) && tmSendTime == old(tmSendTime)
    {
      var timeOrExc := TimeFromArgs(args);
      if timeOrExc.TimeOverflow? {
        return Raised;
      }
      if timeOrExc.TimeError? {
        return Returned(MessageResult(timeOrExc.message));
      }
      tdSendTime := timeOrExc.time;
      r := Returned(MessageResult("New schedule send time:" + TimeStr(timeOrExc.time) + RELOAD_HINT));
    }

    /** `set_tm_sending_time`: the same for tomorrow's send time. */
    method SetTmSendingTime(args: seq<string>) returns (r: Outcome)
      modifies this
      ensures TimeFromArgs(args).TimeOverflow? ==> r == Raised && tmSendTime == old(tmSendTime)
      ensures TimeFromArgs(args).TimeError? ==>
                r == Returned(MessageResult(TimeFromArgs(args).message)) && tmSendTime == old(tmSendTime)
      ensures TimeFromArgs(args).TimeOk? ==>
                tmSendTime == TimeFromArgs(args).time &&
                r == Returned(MessageResult("New send time of schedule for tommorow :" + TimeStr(TimeFromArgs(args).time) + RELOAD_HINT))
      ensures tmSendEnabled == old(tmSendEnabled) && tdSendTime == old(tdSendTime)
    {
      var timeOrExc := TimeFromArgs(args);
      if timeOrExc.TimeOverflow? {
        return Raised;
      }
      if timeOrExc.TimeError? {
        return Returned(MessageResult(timeOrExc.message));
      }
      tmSendTime := timeOrExc.time;
      r := Returned(MessageResult("New send time of schedule for tommorow :" + TimeStr(timeOrExc.time) + RELOAD_HINT));
    }
  }

  /** With sending switched off, the autosend event neither sends nor
      schedules anything. */
  lemma AutosendOffIsSilent(p: UniSchedule, schedule: string)
    requires !p.tmSendEnabled
    ensures Dispatch.Interpret(Returned(p.TomorrowAutosend(schedule))) == Dispatch.NoEffect
  {
  }

  /** The events a new plugin declares after one `/schedule_settime` and
      one `/tschedule_togglesend`: today's event moves to the new time only
      when the arguments parse, tomorrow's keeps its time, and the toggle
      decides what the autosend event sends. */
  method SettingsScenario(timeArgs: seq<string>, toggleArgs: seq<string>, schedule: string)
    returns (events: seq<(DateTime, ActionId)>, autosend: ActionResult)
    ensures |events| == 2 && events[0].1 == TODAY && events[1].1 == TOMORROW_AUTOSEND
    ensures events[0].0.time == (if TimeFromArgs(timeArgs).TimeOk? then TimeFromArgs(timeArgs).time else TODAY_SCHED_TIME)
    ensures events[1].0.time == TOMMOROW_SCHED_TIME
    ensures ToggleArg(toggleArgs, "OFF") ==> autosend == EmptyResult()
    ensures !ToggleArg(toggleArgs, "OFF") ==> autosend == TomorrowResult(schedule)
  {
    var p := new UniSchedule();
    var r1 := p.SetSendingTime(timeArgs);
    var r2 := p.ToggleSendTomorrow(toggleArgs);
    events := p.DailyEvents();
    autosend := p.TomorrowAutosend(schedule);
  }

  function UserCommands(): seq<(string, ActionId)>
  {
    [("schedule", TODAY), ("yschedule", YESTERDAY), ("tschedule", TOMORROW),
     ("schedule_settime", SET_SENDING_TIME), ("tschedule_settime", SET_TM_SENDING_TIME),
     ("tschedule_togglesend", TOGGLE_SEND_TOMORROW)]
  }

  function MonthlyEvents(): seq<(DateTime, ActionId)> { [] }
  function DisorderedEvents(): seq<(DateTime, ActionId)> { [] }

  /** Six commands with distinct names; no monthly or one-off events. */
  lemma Declarations()
    ensures |UserCommands()| == 6
    ensures forall i, j :: 0 <= i < j < |UserCommands()| ==> UserCommands()[i].0 != UserCommands()[j].0
    ensures MonthlyEvents() == [] && DisorderedEvents() == []
  {
  }
}
