/** mynotion.py: the record filters the Notion client applies to query
    results. The queries, pagination and page updates are not modelled;
    each method takes the pages a query returned, already in query order,
    with the parsed properties it reads. */
module NotionQueries {
  import opened Wrappers
  import opened Strings
  import opened Clock

  // ---------------------------------------------------------------------
  // Records

  /** A calendar event as `get_calendar_events` builds it. */
  datatype CalendarEvent = CalendarEvent(id: string, title: string, start: DateTime, end: Option<DateTime>)

  /** The `Date` property: `start`, and `end` when it is set. */
  datatype DateRange = DateRange(start: DateTime, end: Option<DateTime>)

  /** A calendar page: its id, the plain texts of its title and its date. */
  datatype CalendarPage = CalendarPage(id: string, title: seq<string>, date: Option<DateRange>)

  /** A page of the current-tasks database. */
  datatype TaskPage = TaskPage(id: string, title: seq<string>)

  /** An inbox page: whether it is a full page, and its title texts. */
  datatype InboxPage = InboxPage(fullPage: bool, title: seq<string>)

  /** A timetable page: the weekday label, the pair number, the plain texts
      of the subject, lecturer and room properties, and the week label. */
  datatype SchedulePage = SchedulePage(
    weekdayLabel: string, pair: int,
    subject: seq<string>, lecturer: seq<string>, room: seq<string>,
    week: string)

  /** One PAIR_SCHEDULE entry: the pair number and its start and end
      (hour, minute). */
  datatype PairSlot = PairSlot(num: int, start: (int, int), end: (int, int))

  /** `(pair_num, PAIR_SCHEDULE[pair_num - 1], subject, lecturer, auditory)`. */
  datatype ScheduleEntry = ScheduleEntry(pair: int, slot: PairSlot, subject: string, lecturer: string, room: string)

  const PAIR_SCHEDULE: seq<PairSlot> := [
    PairSlot(1, (9, 0), (10, 30)),
    PairSlot(2, (10, 40), (12, 10)),
    PairSlot(3, (12, 50), (14, 20)),
    PairSlot(4, (14, 30), (16, 0)),
    PairSlot(5, (16, 10), (17, 40)),
    PairSlot(6, (17, 50), (19, 20))
  ]

  const WEEKDAYS: map<string, int> := map["Пн" := 1, "Вт" := 2, "Ср" := 3, "Чт" := 4, "Пт" := 5, "Сб" := 6, "Вс" := 7]

  const ODD_WEEK: string := "Нечетная"
  const EVEN_WEEK: string := "Четная"

  const INBOX_TRAILER: string := "Visit Notion to see full list..."

  // ---------------------------------------------------------------------
  // last_inbox_pages

  /** `f"{n:>3d}. {title}"`. */
  function InboxLine(entry: (nat, string)): string
  {
    PadLeft(NatToString(entry.0), 3) + ". " + entry.1
  }

  function InboxLines(entries: seq<(nat, string)>): (ls: seq<string>)
    ensures |ls| == |entries|
  {
    seq(|entries|, j requires 0 <= j < |entries| => InboxLine(entries[j]))
  }

  predicate InboxKept(p: InboxPage)
  {
    p.fullPage && p.title != []
  }

  /** The (number, title) of every kept page, numbered by its position in
      the result from 1. */
  function InboxEntries(pages: seq<InboxPage>): (es: seq<(nat, string)>)
    ensures |es| <= |pages|
    decreases |pages|
  {
    if pages == [] then []
    else
      var k := |pages| - 1;
      InboxEntries(pages[..k]) + (if InboxKept(pages[k]) then [(k + 1, pages[k].title[0])] else [])
  }

  /** An entry is listed iff it numbers a kept page by its position among
      all results, skipped pages included. */
  lemma {:induction false} InboxEntriesMembers(pages: seq<InboxPage>, n: nat, title: string)
    ensures (n, title) in InboxEntries(pages) <==>
              1 <= n <= |pages| && InboxKept(pages[n - 1]) && title == pages[n - 1].title[0]
    decreases |pages|
  {
    if pages != [] {
      var k := |pages| - 1;
      var init := pages[..k];
      InboxEntriesMembers(init, n, title);
      var tail: seq<(nat, string)> := if InboxKept(pages[k]) then [(k + 1, pages[k].title[0])] else [];
      assert InboxEntries(pages) == InboxEntries(init) + tail;
      assert (n, title) in InboxEntries(pages) <==> (n, title) in InboxEntries(init) || (n, title) in tail;
      if 1 <= n <= k {
        assert init[n - 1] == pages[n - 1];
      }
    }
  }

  /** Numbers increase strictly along the list, so no page is listed
      twice. */
  lemma {:induction false} InboxEntriesIncreasing(pages: seq<InboxPage>)
    ensures forall a, b :: 0 <= a < b < |InboxEntries(pages)| ==> InboxEntries(pages)[a].0 < InboxEntries(pages)[b].0
    ensures forall a :: 0 <= a < |InboxEntries(pages)| ==> 1 <= InboxEntries(pages)[a].0 <= |pages|
    decreases |pages|
  {
    if pages != [] {
      var k := |pages| - 1;
      InboxEntriesIncreasing(pages[..k]);
    }
  }

  /** When every page is kept, entry `i` is page `i` with number `i + 1`. */
  lemma {:induction false} InboxEntriesAllKept(pages: seq<InboxPage>)
    requires forall i :: 0 <= i < |pages| ==> pages[i].fullPage && pages[i].title != []
    ensures |InboxEntries(pages)| == |pages|
    ensures forall i :: 0 <= i < |pages| ==> InboxEntries(pages)[i] == (i + 1, pages[i].title[0])
    decreases |pages|
  {
    if pages != [] {
      var k := |pages| - 1;
      var init := pages[..k];
      assert forall i :: 0 <= i < k ==> init[i] == pages[i];
      InboxEntriesAllKept(init);
      assert InboxKept(pages[k]);
    }
  }

  lemma InboxLinesAppend(a: seq<(nat, string)>, b: seq<(nat, string)>)
    ensures InboxLines(a + b) == InboxLines(a) + InboxLines(b)
  {
    var l, r := InboxLines(a + b), InboxLines(a) + InboxLines(b);
    assert |l| == |r|;
    forall j | 0 <= j < |l|
      ensures l[j] == r[j]
    {
      if j < |a| {
        assert (a + b)[j] == a[j];
      } else {
        assert (a + b)[j] == b[j - |a|];
      }
    }
  }

  /** One more result adds its line iff the page is kept. */
  lemma InboxLinesStep(pages: seq<InboxPage>, i: nat)
    requires i < |pages|
    ensures InboxLines(InboxEntries(pages[..i + 1])) ==
              InboxLines(InboxEntries(pages[..i])) +
              (if InboxKept(pages[i]) then [InboxLine((i + 1, pages[i].title[0]))] else [])
  {
    assert pages[..i + 1][..i] == pages[..i];
    var tail: seq<(nat, string)> := if InboxKept(pages[i]) then [(i + 1, pages[i].title[0])] else [];
    assert InboxEntries(pages[..i + 1]) == InboxEntries(pages[..i]) + tail;
    InboxLinesAppend(InboxEntries(pages[..i]), tail);
  }

  /** `last_inbox_pages` on one query result: the numbered lines and the
      trailer iff the result has a next cursor. */
  method LastInboxPages(results: seq<InboxPage>, nextCursor: Option<string>) returns (titles: seq<string>)
    ensures titles == InboxLines(InboxEntries(results)) + (if nextCursor.Some? then [INBOX_TRAILER] else [])
  {
    titles := [];
    var i := 0;
    while i < |results|
      invariant 0 <= i <= |results|
      invariant titles == InboxLines(InboxEntries(results[..i]))
    {
      var task := results[i];
      InboxLinesStep(results, i);
      if task.fullPage {
        if task.title != [] {
          titles := titles + [InboxLine((i + 1, task.title[0]))];
        }
      }
      i := i + 1;
    }
    assert results[..i] == results;
    if nextCursor.Some? {
      titles := titles + [INBOX_TRAILER];
    }
  }

  // ---------------------------------------------------------------------
  // get_calendar_events

  predicate CalendarKept(p: CalendarPage)
  {
    p.title != [] && p.date.Some?
  }

  function ToEvent(p: CalendarPage): CalendarEvent
    requires CalendarKept(p)
  {
    CalendarEvent(p.id, p.title[0], p.date.value.start, p.date.value.end)
  }

  function CalendarSpec(pages: seq<CalendarPage>): (es: seq<CalendarEvent>)
    ensures |es| <= |pages|
    decreases |pages|
  {
    if pages == [] then []
    else
      var k := |pages| - 1;
      CalendarSpec(pages[..k]) + (if CalendarKept(pages[k]) then [ToEvent(pages[k])] else [])
  }

  /** An event is returned iff it comes from a page with both a title and
      a date, with the first title text, the start, and the end or None. */
  lemma {:induction false} CalendarSpecMembers(pages: seq<CalendarPage>, e: CalendarEvent)
    ensures e in CalendarSpec(pages) <==>
              exists i :: 0 <= i < |pages| && pages[i].title != [] && pages[i].date.Some? &&
                          e == CalendarEvent(pages[i].id, pages[i].title[0], pages[i].date.value.start, pages[i].date.value.end)
    decreases |pages|
  {
    if pages != [] {
      var k := |pages| - 1;
      var init := pages[..k];
      CalendarSpecMembers(init, e);
      assert forall i :: 0 <= i < k ==> init[i] == pages[i];
    }
  }

  /** `get_calendar_events` over the pages of all result pages. */
  method GetCalendarEvents(pages: seq<CalendarPage>) returns (events: seq<CalendarEvent>)
    ensures events == CalendarSpec(pages)
  {
    events := [];
    var i := 0;
    while i < |pages|
      invariant 0 <= i <= |pages|
      invariant events == CalendarSpec(pages[..i])
    {
      var page := pages[i];
      assert pages[..i + 1][..i] == pages[..i];
      if page.title != [] && page.date.Some? {
        events := events + [CalendarEvent(page.id, page.title[0], page.date.value.start, page.date.value.end)];
      }
      i := i + 1;
    }
    assert pages[..i] == pages;
  }

  // ---------------------------------------------------------------------
  // get_current_tasks

  function TasksSpec(pages: seq<TaskPage>): (m: map<string, string>)
    ensures forall id :: id in m ==> exists i :: 0 <= i < |pages| && pages[i].id == id && pages[i].title != [] && m[id] == pages[i].title[0]
    decreases |pages|
  {
    if pages == [] then map[]
    else
      var k := |pages| - 1;
      var init := TasksSpec(pages[..k]);
      assert forall i :: 0 <= i < k ==> pages[..k][i] == pages[i];
      if pages[k].title != [] then init[pages[k].id := pages[k].title[0]] else init
  }

  /** A page id is a key iff some page with that id has a title. */
  lemma {:induction false} TasksSpecKeys(pages: seq<TaskPage>, id: string)
    ensures id in TasksSpec(pages) <==> exists i :: 0 <= i < |pages| && pages[i].id == id && pages[i].title != []
    decreases |pages|
  {
    if pages != [] {
      var k := |pages| - 1;
      TasksSpecKeys(pages[..k], id);
      assert forall i :: 0 <= i < k ==> pages[..k][i] == pages[i];
    }
  }

  /** Later pages overwrite earlier ones: an id maps to the title of the
      last titled page that carries it. */
  lemma {:induction false} TasksSpecLastWins(pages: seq<TaskPage>, i: nat)
    requires i < |pages| && pages[i].title != []
    requires forall j :: i < j < |pages| ==> pages[j].id != pages[i].id || pages[j].title == []
    ensures pages[i].id in TasksSpec(pages) && TasksSpec(pages)[pages[i].id] == pages[i].title[0]
    decreases |pages|
  {
    var k := |pages| - 1;
    var init := TasksSpec(pages[..k]);
    assert TasksSpec(pages) == if pages[k].title != [] then init[pages[k].id := pages[k].title[0]] else init;
    if i < k {
      assert pages[..k][i] == pages[i];
      assert forall j :: i < j < k ==> pages[..k][j] == pages[j];
      TasksSpecLastWins(pages[..k], i);
      assert pages[k].id != pages[i].id || pages[k].title == [];
    }
  }

  /** `get_current_tasks`: page id to the first title text, pages without a
      title skipped. */
  method GetCurrentTasks(pages: seq<TaskPage>) returns (tasks: map<string, string>)
    ensures tasks == TasksSpec(pages)
  {
    tasks := map[];
    var i := 0;
    while i < |pages|
      invariant 0 <= i <= |pages|
      invariant tasks == TasksSpec(pages[..i])
    {
      var page := pages[i];
      assert pages[..i + 1][..i] == pages[..i];
      if page.title != [] {
        tasks := tasks[page.id := page.title[0]];
      }
      i := i + 1;
    }
    assert pages[..i] == pages;
  }

  // ---------------------------------------------------------------------
  // uni_daily_schedule

  /** Why a timetable query cannot be turned into a schedule: an unknown
      weekday label (KeyError), an empty text property or a pair number
      outside PAIR_SCHEDULE (IndexError). */
  datatype ScheduleError = UnknownWeekday(weekdayName: string) | MissingText | NoSuchPair(pair: int)

  /** `seq[i]` with Python's negative indexing. */
  function PyIndex<T>(s: seq<T>, i: int): (r: Option<T>)
    ensures r.Some? <==> -|s| <= i < |s|
    ensures 0 <= i < |s| ==> r == Some(s[i])
    ensures -|s| <= i < 0 ==> r == Some(s[|s| + i])
  {
    if 0 <= i < |s| then Some(s[i])
    else if -|s| <= i < 0 then Some(s[|s| + i])
    else None
  }

  /** The week test: an even week keeps "Четная" entries, an odd week
      keeps "Нечетная" entries, and entries labelled neither are kept in
      both. */
  predicate WeekMatches(week: string, evenWeek: bool)
  {
    var isOdd := week == ODD_WEEK;
    var isEven := week == EVEN_WEEK;
    (evenWeek && isEven) || (!evenWeek && isOdd) || isEven == isOdd
  }

  /** The week test, spelt out by label. */
  lemma WeekMatchesByLabel(week: string, evenWeek: bool)
    ensures WeekMatches(week, evenWeek) <==>
              (week == EVEN_WEEK && evenWeek) || (week == ODD_WEEK && !evenWeek) || (week != EVEN_WEEK && week != ODD_WEEK)
  {
  }

  /** The whole filter, for a page whose label is known. */
  predicate Kept(p: SchedulePage, weekday: int, evenWeek: bool)
    requires p.weekdayLabel in WEEKDAYS
  {
    WEEKDAYS[p.weekdayLabel] - 1 == weekday && WeekMatches(p.week, evenWeek)
  }

  /** One page, in the order the source reads it: the label lookup, the
      three texts, then, for a kept page only, the PAIR_SCHEDULE entry.
      `None` inside `Ok` means the page is filtered out. */
  function ScheduleStep(p: SchedulePage, weekday: int, evenWeek: bool): Result<Option<ScheduleEntry>, ScheduleError>
  {
    if p.weekdayLabel !in WEEKDAYS then Err(UnknownWeekday(p.weekdayLabel))
    else if p.subject == [] || p.lecturer == [] || p.room == [] then Err(MissingText)
    else if !Kept(p, weekday, evenWeek) then Ok(None)
    else match PyIndex(PAIR_SCHEDULE, p.pair - 1)
      case None => Err(NoSuchPair(p.pair))
      case Some(slot) => Ok(Some(ScheduleEntry(p.pair, slot, p.subject[0], p.lecturer[0], p.room[0])))
  }

  /** The schedule of `pages`, or the first error. */
  function ScheduleSpec(pages: seq<SchedulePage>, weekday: int, evenWeek: bool): Result<seq<ScheduleEntry>, ScheduleError>
    decreases |pages|
  {
    if pages == [] then Ok([])
    else
      var k := |pages| - 1;
      match ScheduleSpec(pages[..k], weekday, evenWeek)
      case Err(e) => Err(e)
      case Ok(es) =>
        match ScheduleStep(pages[k], weekday, evenWeek)
        case Err(e) => Err(e)
        case Ok(None) => Ok(es)
        case Ok(Some(entry)) => Ok(es + [entry])
  }

  /** When the query succeeds, an entry is in the schedule iff a page
      passes the weekday and week test, and it carries that page's fields
      and its PAIR_SCHEDULE entry (pair 0 takes the last one, as Python's
      index -1 does). */
  lemma {:induction false} ScheduleSpecMembers(pages: seq<SchedulePage>, weekday: int, evenWeek: bool, e: ScheduleEntry)
    requires ScheduleSpec(pages, weekday, evenWeek).Ok?
    ensures e in ScheduleSpec(pages, weekday, evenWeek).value <==>
              exists i :: 0 <= i < |pages| && pages[i].weekdayLabel in WEEKDAYS && Kept(pages[i], weekday, evenWeek) &&
                          ScheduleStep(pages[i], weekday, evenWeek) == Ok(Some(e))
    decreases |pages|
  {
    if pages != [] {
      var k := |pages| - 1;
      var init := pages[..k];
      ScheduleSpecMembers(init, weekday, evenWeek, e);
      assert forall i :: 0 <= i < k ==> init[i] == pages[i];
    }
  }

  /** The entry of a kept page, in full. */
  lemma KeptEntry(p: SchedulePage, weekday: int, evenWeek: bool)
    requires p.weekdayLabel in WEEKDAYS && Kept(p, weekday, evenWeek)
    requires p.subject != [] && p.lecturer != [] && p.room != [] && 1 <= p.pair <= 6
    ensures ScheduleStep(p, weekday, evenWeek) == Ok(Some(ScheduleEntry(p.pair, PAIR_SCHEDULE[p.pair - 1], p.subject[0], p.lecturer[0], p.room[0])))
  {
  }

  /** `uni_daily_schedule(day, even_week)` with `weekday == day.weekday()`. */
  method UniDailySchedule(pages: seq<SchedulePage>, weekday: int, evenWeek: bool) returns (r: Result<seq<ScheduleEntry>, ScheduleError>)
    ensures r == ScheduleSpec(pages, weekday, evenWeek)
  {
    var daily: seq<ScheduleEntry> := [];
    var i := 0;
    while i < |pages|
      invariant 0 <= i <= |pages|
      invariant ScheduleSpec(pages[..i], weekday, evenWeek) == Ok(daily)
    {
      var p := pages[i];
      assert pages[..i + 1][..i] == pages[..i];
      var step := ScheduleStep(p, weekday, evenWeek);
      if step.Err? {
        ScheduleErrSticks(pages, weekday, evenWeek, i + 1);
        return Err(step.error);
      }
      if step.value.Some? {
        daily := daily + [step.value.value];
      }
      i := i + 1;
    }
    assert pages[..i] == pages;
    r := Ok(daily);
  }

  lemma {:induction false} ScheduleErrSticks(pages: seq<SchedulePage>, weekday: int, evenWeek: bool, k: nat)
    requires k <= |pages| && ScheduleSpec(pages[..k], weekday, evenWeek).Err?
    ensures ScheduleSpec(pages, weekday, evenWeek) == ScheduleSpec(pages[..k], weekday, evenWeek)
    decreases |pages| - k
  {
    if k < |pages| {
      assert pages[..k + 1][..k] == pages[..k];
      ScheduleErrSticks(pages, weekday, evenWeek, k + 1);
    } else {
      assert pages[..k] == pages;
    }
  }
}
