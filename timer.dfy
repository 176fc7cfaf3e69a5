/** extension/plugins/timer_plugin.py: `/timerset HH MM SS` answers at once
    and asks for a follow-up beep after the given duration. */
module TimerPlugin {
  import opened Wrappers
  import opened Strings
  import opened Clock
  import opened Actions
  import opened Tools
  import Dispatch

  const NAME: string := "Timer"
  const SET_TIMER: ActionId := Method(NAME, "set_timer")

  /** `timedelta(hours=h, minutes=m, seconds=s)` in seconds: less than a
      day, and zero only for 00:00:00. */
  function DurationSeconds(t: TimeOfDay): (d: nat)
    requires ValidTime(t)
    ensures d < SecondsPerDay
    ensures d == 0 <==> t == TimeOfDay(0, 0, 0)
  {
    t.hour * 3600 + t.minute * 60 + t.second
  }

  /** The `:MM:SS` part of a duration: its minutes and seconds past the
      hour, zero-padded. */
  function MinutesSeconds(secs: nat): (s: string)
    ensures |s| == 6 && s[0] == ':' && s[3] == ':'
    ensures AllDigits(s[1..3]) && DigitsValue(s[1..3]) == secs % 3600 / 60
    ensures AllDigits(s[4..]) && DigitsValue(s[4..]) == secs % 60
  {
    var m := secs % 3600 / 60;
    assert m < 60;
    var mm, ss := Pad2(m), Pad2(secs % 60);
    var s := ":" + mm + ":" + ss;
    assert s[1..3] == mm && s[4..] == ss;
    s
  }

  /** The "N day, " or "N days, " that leads a duration of a day or
      longer. */
  function DaysPrefix(days: nat): string
  {
    if days == 0 then "" else NatToString(days) + (if days == 1 then " day, " else " days, ")
  }

  lemma WithinDay(secs: nat)
    ensures secs < SecondsPerDay ==> secs % SecondsPerDay == secs && secs / SecondsPerDay == 0
  {
  }

  /** The "H:MM:SS" of a duration: its whole hours unpadded, then the
      padded minutes and seconds. */
  function HoursMinutesSeconds(secs: nat): (s: string)
    ensures |s| > 6 && AllDigits(s[..|s| - 6]) && DigitsValue(s[..|s| - 6]) == secs / 3600
    ensures s[|s| - 6..] == MinutesSeconds(secs)
  {
    var hours := NatToString(secs / 3600);
    var s := hours + MinutesSeconds(secs);
    assert s[..|s| - 6] == hours;
    s
  }

  /** `str(timedelta(seconds=secs))`: "H:MM:SS", after "N day, " or
      "N days, " when the duration is a day or longer. */
  function TimedeltaStr(secs: nat): (s: string)
    ensures secs < SecondsPerDay ==> s == HoursMinutesSeconds(secs)
  {
    WithinDay(secs);
    DaysPrefix(secs / SecondsPerDay) + HoursMinutesSeconds(secs % SecondsPerDay)
  }

  /** Under a day, the text is the whole hours in decimal followed by the
      padded minutes and seconds. */
  lemma TimedeltaStrWithinDay(secs: nat)
    requires secs < SecondsPerDay
    ensures var s := TimedeltaStr(secs);
            |s| > 6 && AllDigits(s[..|s| - 6]) && DigitsValue(s[..|s| - 6]) == secs / 3600 &&
            s[|s| - 6..] == MinutesSeconds(secs)
  {
    var s := TimedeltaStr(secs);
    assert s == HoursMinutesSeconds(secs);
  }

  /** From a day on, the text is the day count followed by the text of
      the remainder. */
  lemma TimedeltaStrDays(secs: nat)
    requires secs >= SecondsPerDay
    ensures TimedeltaStr(secs) == DaysPrefix(secs / SecondsPerDay) + TimedeltaStr(secs % SecondsPerDay)
  {
    var rest := secs % SecondsPerDay;
    assert TimedeltaStr(rest) == HoursMinutesSeconds(rest);
  }

  /** `timer_beep_factory(d)()`: the ring message, no follow-up. */
  function Beep(secs: nat): (r: ActionResult)
    ensures r.message.Some? && r.nextDatetime.None? && r.nextAction.None?
    ensures StartsWith(r.message.value, "Ring!!! ") && EndsWith(r.message.value, " is done")
    ensures |r.message.value| >= 16 && r.message.value[8..|r.message.value| - 8] == TimedeltaStr(secs)
  {
    var duration := TimedeltaStr(secs);
    Framed("Ring!!! ", duration, " is done");
    MessageResult("Ring!!! " + duration + " is done")
  }

  /** The hours, minutes and seconds of a duration are those of `t`. */
  lemma DurationFields(t: TimeOfDay)
    requires ValidTime(t)
    ensures DurationSeconds(t) / 3600 == t.hour
    ensures DurationSeconds(t) % 3600 / 60 == t.minute
    ensures DurationSeconds(t) % 60 == t.second
  {
    var d := DurationSeconds(t);
    assert d == t.hour * 3600 + (t.minute * 60 + t.second);
    assert d == (t.hour * 60 + t.minute) * 60 + t.second;
  }

  /** The duration text of a timer set to `t` reads back as its hours,
      minutes and seconds. */
  lemma DurationTextNamesTime(t: TimeOfDay)
    requires ValidTime(t)
    ensures var s := TimedeltaStr(DurationSeconds(t));
            |s| > 6 &&
            AllDigits(s[..|s| - 6]) && DigitsValue(s[..|s| - 6]) == t.hour &&
            var ms := s[|s| - 6..];
            ms == MinutesSeconds(DurationSeconds(t)) &&
            AllDigits(ms[1..3]) && DigitsValue(ms[1..3]) == t.minute &&
            AllDigits(ms[4..]) && DigitsValue(ms[4..]) == t.second
  {
    TimedeltaStrWithinDay(DurationSeconds(t));
    DurationFields(t);
  }

  /** `set_timer(*args)` at the instant `now`: the OverflowError of
      `time()` escapes, a returned error text is the reply, and a time
      starts the timer. */
  function SetTimer(args: seq<string>, now: DateTime): (o: Outcome)
    requires ValidDateTime(now)
    ensures TimeFromArgs(args).TimeOverflow? <==> o.Raised?
    ensures TimeFromArgs(args).TimeError? ==> o == Returned(MessageResult(TimeFromArgs(args).message))
    ensures TimeFromArgs(args).TimeOk? ==>
              var d := DurationSeconds(TimeFromArgs(args).time);
              o.Returned? &&
              o.result.message == Some("Timer is set") &&
              o.result.nextDatetime == Some(AddSeconds(now, d)) &&
              o.result.nextAction == Some(TimerBeep(d))
  {
    match TimeFromArgs(args)
    case TimeOverflow => Raised
    case TimeError(text) => Returned(MessageResult(text))
    case TimeOk(t) =>
      var d := DurationSeconds(t);
      Returned(ActionResult(Some("Timer is set"), Some(AddSeconds(now, d)), Some(TimerBeep(d))))
  }

  /** The follow-up is never scheduled for earlier than now, and is later
      than now for any non-zero duration. */
  lemma SetTimerFollowUpNotEarlier(args: seq<string>, now: DateTime)
    requires ValidDateTime(now)
    requires TimeFromArgs(args).TimeOk?
    ensures var o := SetTimer(args, now);
            o.Returned? && o.result.nextDatetime.Some? &&
            (o.result.nextDatetime.value == now || Before(now, o.result.nextDatetime.value)) &&
            (TimeFromArgs(args).time != TimeOfDay(0, 0, 0) ==> Before(now, o.result.nextDatetime.value))
  {
    var t := TimeFromArgs(args).time;
    assert SetTimer(args, now).result.nextDatetime == Some(AddSeconds(now, DurationSeconds(t)));
  }

  /** The timer never rings: whenever `set_timer` returns, its message is
      truthy and the envelope sends it instead of scheduling the beep,
      whether the arguments were good or not; when `time()` overflows the
      envelope logs the failure and sends nothing. Either way no job is
      added. */
  lemma TimerBeepNeverScheduled(args: seq<string>, now: DateTime, chat: int)
    requires ValidDateTime(now)
    ensures var o := SetTimer(args, now);
            var e := Dispatch.Interpret(o);
            Dispatch.NewJobs(e, NAME, chat) == [] &&
            (o.Returned? ==> Dispatch.NewMessages(e, chat) == [Dispatch.Sent(chat, o.result.message.value)]) &&
            (o.Raised? ==> e == Dispatch.Fail && Dispatch.NewMessages(e, chat) == [])
  {
  }

  /** Two commands, both bound to `set_timer`. */
  function UserCommands(): (cs: seq<(string, ActionId)>)
    ensures |cs| == 2 && cs[0].0 != cs[1].0
    ensures forall i :: 0 <= i < |cs| ==> cs[i].1 == SET_TIMER
  {
    [("timerset", SET_TIMER), ("settimer", SET_TIMER)]
  }

  /** The timer declares no scheduled events of any kind. */
  function DailyEvents(): seq<(DateTime, ActionId)> { [] }
  function MonthlyEvents(): seq<(DateTime, ActionId)> { [] }
  function DisorderedEvents(): seq<(DateTime, ActionId)> { [] }
}
