/** Calendar values: Python's `time`, `date` and `datetime` with whole
    seconds, the comparisons the plugins use, adding a duration, and the
    strftime fields the messages print. Time zones are not modelled. */
module Clock {
  import opened Strings

  const SecondsPerDay: int := 86400

  datatype TimeOfDay = TimeOfDay(hour: int, minute: int, second: int)

  /** The range `datetime.time(h, m, s)` accepts. */
  predicate ValidTime(t: TimeOfDay)
  {
    0 <= t.hour <= 23 && 0 <= t.minute <= 59 && 0 <= t.second <= 59
  }

  function SecondsOfDay(t: TimeOfDay): int
  {
    t.hour * 3600 + t.minute * 60 + t.second
  }

  /** The time of day `s` seconds after midnight. */
  function TimeAt(s: int): (t: TimeOfDay)
    requires 0 <= s < SecondsPerDay
    ensures ValidTime(t) && SecondsOfDay(t) == s
  {
    TimeOfDay(s / 3600, (s % 3600) / 60, s % 60)
  }

  /** Python's `<` on times, which is lexicographic on (hour, minute, second). */
  predicate TimeBefore(a: TimeOfDay, b: TimeOfDay)
  {
    a.hour < b.hour || (a.hour == b.hour && (a.minute < b.minute || (a.minute == b.minute && a.second < b.second)))
  }

  datatype Date = Date(year: int, month: int, day: int)

  predicate IsLeapYear(y: int)
  {
    y % 4 == 0 && (y % 100 != 0 || y % 400 == 0)
  }

  function DaysInMonth(y: int, m: int): int
  {
    if m == 2 then (if IsLeapYear(y) then 29 else 28)
    else if m == 4 || m == 6 || m == 9 || m == 11 then 30
    else 31
  }

  predicate ValidDate(d: Date)
  {
    1 <= d.month <= 12 && 1 <= d.day <= DaysInMonth(d.year, d.month)
  }

  /** Python's `<` on dates. */
  predicate DateBefore(a: Date, b: Date)
  {
    a.year < b.year || (a.year == b.year && (a.month < b.month || (a.month == b.month && a.day < b.day)))
  }

  /** The calendar day after `d`. */
  function NextDate(d: Date): (r: Date)
    requires ValidDate(d)
    ensures ValidDate(r) && DateBefore(d, r)
  {
    if d.day < DaysInMonth(d.year, d.month) then Date(d.year, d.month, d.day + 1)
    else if d.month < 12 then Date(d.year, d.month + 1, 1)
    else Date(d.year + 1, 1, 1)
  }

  /** `d + timedelta(days=n)`. */
  function AddDays(d: Date, n: nat): (r: Date)
    requires ValidDate(d)
    ensures ValidDate(r)
    ensures n == 0 ==> r == d
    ensures n > 0 ==> DateBefore(d, r)
    decreases n
  {
    if n == 0 then d
    else AddDays(NextDate(d), n - 1)
  }

  datatype DateTime = DateTime(date: Date, time: TimeOfDay)

  predicate ValidDateTime(dt: DateTime)
  {
    ValidDate(dt.date) && ValidTime(dt.time)
  }

  /** Python's `<` on datetimes. */
  predicate Before(a: DateTime, b: DateTime)
  {
    DateBefore(a.date, b.date) || (a.date == b.date && TimeBefore(a.time, b.time))
  }

  lemma TimeBeforeBySeconds(a: TimeOfDay, b: TimeOfDay)
    requires ValidTime(a) && ValidTime(b)
    ensures TimeBefore(a, b) <==> SecondsOfDay(a) < SecondsOfDay(b)
  {
  }

  /** `dt + timedelta(seconds=secs)`: the result is never earlier than
      `dt`, and is later whenever the duration is positive. */
  function AddSeconds(dt: DateTime, secs: nat): (r: DateTime)
    requires ValidDateTime(dt)
    ensures ValidDateTime(r)
    ensures SecondsOfDay(r.time) == (SecondsOfDay(dt.time) + secs) % SecondsPerDay
    ensures secs == 0 ==> r == dt
    ensures secs > 0 ==> Before(dt, r)
    ensures secs < SecondsPerDay ==>
              r.date == if SecondsOfDay(dt.time) + secs < SecondsPerDay then dt.date else NextDate(dt.date)
  {
    var total := SecondsOfDay(dt.time) + secs;
    var r := DateTime(AddDays(dt.date, total / SecondsPerDay), TimeAt(total % SecondsPerDay));
    AddSecondsOrder(dt, secs, r);
    r
  }

  lemma TimeAtSecondsOfDay(t: TimeOfDay)
    requires ValidTime(t)
    ensures TimeAt(SecondsOfDay(t)) == t
  {
    var s := SecondsOfDay(t);
    assert s / 3600 == t.hour;
    assert s % 3600 == t.minute * 60 + t.second;
  }

  lemma AddSecondsOrder(dt: DateTime, secs: nat, r: DateTime)
    requires ValidDateTime(dt)
    requires var total := SecondsOfDay(dt.time) + secs;
             r == DateTime(AddDays(dt.date, total / SecondsPerDay), TimeAt(total % SecondsPerDay))
    ensures secs == 0 ==> r == dt
    ensures secs > 0 ==> Before(dt, r)
    ensures secs < SecondsPerDay ==>
              r.date == if SecondsOfDay(dt.time) + secs < SecondsPerDay then dt.date else NextDate(dt.date)
  {
    var total := SecondsOfDay(dt.time) + secs;
    if total < SecondsPerDay {
      assert total / SecondsPerDay == 0 && total % SecondsPerDay == total;
      assert r.date == dt.date;
      TimeBeforeBySeconds(dt.time, r.time);
      if secs == 0 {
        TimeAtSecondsOfDay(dt.time);
      }
    } else {
      assert total / SecondsPerDay > 0;
    }
  }

  /** `t.strftime("%H:%M:%S")`, which is also `str(t)` for whole seconds. */
  function TimeStr(t: TimeOfDay): (s: string)
    requires ValidTime(t)
    ensures |s| == 8 && s[2] == ':' && s[5] == ':'
    ensures AllDigits(s[..2]) && DigitsValue(s[..2]) == t.hour
    ensures AllDigits(s[3..5]) && DigitsValue(s[3..5]) == t.minute
    ensures AllDigits(s[6..]) && DigitsValue(s[6..]) == t.second
  {
    var h, m, sec := Pad2(t.hour), Pad2(t.minute), Pad2(t.second);
    var s := h + ":" + m + ":" + sec;
    assert s[..2] == h && s[3..5] == m && s[6..] == sec;
    s
  }

  /** `dt.strftime(" %d/%m")`. */
  function DayMonthStr(d: Date): (s: string)
    requires ValidDate(d)
    ensures |s| == 6 && s[0] == ' ' && s[3] == '/'
    ensures AllDigits(s[1..3]) && DigitsValue(s[1..3]) == d.day
    ensures AllDigits(s[4..]) && DigitsValue(s[4..]) == d.month
  {
    var dd, mm := Pad2(d.day), Pad2(d.month);
    var s := " " + dd + "/" + mm;
    assert s[1..3] == dd && s[4..] == mm;
    s
  }

  /** `dt.strftime(" %H:%M")`. */
  function HourMinuteStr(t: TimeOfDay): (s: string)
    requires ValidTime(t)
    ensures |s| == 6 && s[0] == ' ' && s[3] == ':'
    ensures AllDigits(s[1..3]) && DigitsValue(s[1..3]) == t.hour
    ensures AllDigits(s[4..]) && DigitsValue(s[4..]) == t.minute
  {
    var h, m := Pad2(t.hour), Pad2(t.minute);
    var s := " " + h + ":" + m;
    assert s[1..3] == h && s[4..] == m;
    s
  }

  /** The date that `dt_from_time` combines a bare time with; the plugins
      only ever read the time part back. */
  const PlaceholderDate: Date := Date(2000, 1, 1)

  function DtFromTime(t: TimeOfDay): (dt: DateTime)
    ensures dt.time == t
  {
    DateTime(PlaceholderDate, t)
  }
}
