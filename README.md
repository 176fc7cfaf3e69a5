# life-assistant, modelled in Dafny

life-assistant is a Telegram bot for one user. It is built from plugins
that expose commands and timed events, and most of them read or update a
Notion workspace. This project models, and proves properties of, the
parts of it that decide what happens:

- the plugin framework in `extension/`:
  - the `ActionResult` value every action returns;
  - the enable flag of `AbstractPlugin`;
  - the name-keyed `PluginManager` with its two-instance limit;
  - `PluginLoader` discovery;
  - the `ExtensionLoader` envelope, which calls an action and then sends
    its message, schedules one tagged follow-up job, or does nothing, and
    which turns declared events into daily, monthly and one-off jobs;
- the helpers of `tools.py` and `tg-bot/tools.py`: HTML escaping,
  parsing a time from three arguments, `singleton` and `validate_user`;
- the plugins: the timer, the university timetable, the morning summary,
  the calendar cleanup, inbox management and the random current task;
- the record filters of `mynotion.py`, applied to query results that are
  given as input;
- the older morning-message pipeline of `tg-bot/plugins`: a manager that
  loads plugins from a directory and lets every enabled one edit one list
  of lines in place.

There is one Dafny module per source file; `Wrappers`, `Strings`, `Clock`,
`TextLists` and `Greetings` hold what several of them share. Code that
changes state is modelled as classes and methods with loops. Each method
is proved against a function over plain values, and the lemmas state the
source's promises about that function.

Inputs replace everything outside the program:

- the clock is `now`/`today`;
- `random.choice` is a seed, and `shuffle`'s result is the shuffled
  list;
- the Notion query results are sequences of pages;
- the directory listing is a sequence of names;
- module execution and import are functions;
- the outcome of every action call is an oracle;
- `textwrap.wrap` is a function argument.

Notion page updates are returned as call records. The job queue and the
message outbox are fields of the `Dispatch.Bot` class.

## Model

| member | source | states |
|---|---|---|
| Actions.EmptyResult | extension/actionresult.py:5-9 | `ActionResult()` has no message, no next datetime and no next action |
| Actions.MessageResult | extension/actionresult.py:7-9 | the single positional argument is the message; both follow-up fields stay `None` |
| Actions.ActionResultEquality | extension/actionresult.py:5 | dataclass equality holds exactly when the three fields are pairwise equal |
| Actions.FollowUpFieldsIndependent | extension/actionresult.py:6-9 | either follow-up field can be set without the other, and such a result has no follow-up; only both together form one |
| PluginBase.Plugin.constructor | extension/abstractplugin.py:13-14 | a new plugin has no `_enabled` value (the constructor assigns a local) and keeps the name its class gives it |
| PluginBase.Plugin.Enable | extension/abstractplugin.py:30-35 | afterwards the flag is True whatever it was before, so the call is idempotent |
| PluginBase.Plugin.Disable | extension/abstractplugin.py:37-42 | afterwards the flag is False whatever it was before |
| PluginBase.PluginLifecycle | extension/abstractplugin.py:13-51 | `isenabled` is unset on a fresh plugin; enabling twice equals enabling once; disabling gives False; the name is never changed |
| Registry.InstanceCounter.constructor | extension/plgmanager.py:9 | the class counter starts at 0 |
| Registry.NameMap | extension/plgmanager.py:28-29 | the dict comprehension files every plugin under its own name, holds every plugin's name and holds nothing but the given plugins |
| Registry.NameMapLastWins | extension/plgmanager.py:28-29 | for duplicate names the dict keeps the last plugin with that name |
| Registry.PluginManager.constructor | extension/plgmanager.py:12-16 | the registry is exactly the name map of the given plugins (empty for none) |
| Registry.PluginManager.SetPlugins | extension/plgmanager.py:28-29 | the whole mapping is replaced by the name map of the new plugins; nothing earlier survives |
| Registry.PluginManager.GetPlugin | extension/plgmanager.py:31-32 | a plugin is returned iff the name is a key, and it is the plugin filed under it; otherwise KeyError |
| Registry.PluginManager.EnablePlugin | extension/plgmanager.py:34-35 | the named plugin is enabled, every other plugin's flag is unchanged, and an unknown name is a KeyError that changes nothing |
| Registry.PluginManager.DisablePlugin | extension/plgmanager.py:37-38 | the named plugin is disabled, every other flag is unchanged, and an unknown name changes nothing |
| Registry.NewPluginManager | extension/plgmanager.py:12-16 | every construction advances the counter; it fails (RuntimeError) iff the id it took is above 1, and otherwise holds the name map of the plugins |
| Registry.ThirdManagerFails | extension/plgmanager.py:9-16 | the constructions with ids 0 and 1 succeed with an empty mapping, the third raises |
| Discovery.PluginFiles | extension/plgloader.py:21-22 | a file is kept iff it is in the listing and its name ends in `plugin.py`; order is kept |
| Discovery.ModuleName | extension/plgloader.py:41 | the module name is the file name less its last three characters, or empty for shorter names |
| Discovery.ModulePathName | extension/plgloader.py:39-42 | the path joins directory and file; the name is the module name |
| Discovery.ModuleNameDropsExtension | extension/plgloader.py:41 | for a `.py` file, name plus `.py` gives back the file name |
| Discovery.ModuleDir | extension/plgloader.py:45 | exactly the attributes whose names do not start with `__` |
| Discovery.ModuleDirKeepsPlainNames | extension/plgloader.py:45 | a module with no underscore-prefixed names is kept whole, in order |
| Discovery.FetchSpecCharacterised | extension/plgloader.py:44-53 | a module yields plugins iff every plugin-class attribute is instantiable; then there is one instance per plugin-class binding, and a class is instantiated iff some attribute binds it and it is a plugin subclass other than the base |
| Discovery.FetchPluginsFromModule | extension/plgloader.py:44-53 | the loop builds exactly the instances of the filtered attributes, or fails as a whole when one instantiation raises |
| Discovery.FetchNoneSticks | extension/plgloader.py:47-52 | once a prefix of the attributes fails, the whole module fails |
| Discovery.SkippedSpec | extension/plgloader.py:27-29 | the skipped files are exactly the plugin files that fail to load: every failing file is logged and skipped, and no other file is |
| Discovery.LoadSpecAppend | extension/plgloader.py:23-30 | the plugins of a listing are the plugins of its first part followed by those of the rest |
| Discovery.LoadSpecMembers | extension/plgloader.py:24-29 | a plugin is loaded iff some file loaded successfully and yielded it; failing files contribute nothing |
| Discovery.PluginLoader.constructor | extension/plgloader.py:17-18 | the loader keeps its directory |
| Discovery.PluginLoader.Load | extension/plgloader.py:20-30 | the loaded plugins are the per-file results of the plugin files concatenated in listing order; failing files are the ones logged |
| Discovery.PluginLoader.LoadPluginFile | extension/plgloader.py:32-37 | executing the module and fetching its plugins; either failure fails the file |
| Discovery.RandomTaskModuleIsPlain | extension/plgloader.py:45 | no attribute of the shipped random-task module starts with a double underscore, so the directory listing keeps all thirteen names in order |
| Discovery.FetchFailsOnBadPlugin | extension/plgloader.py:47-52 | one plugin-class attribute that cannot be instantiated makes the whole module yield nothing |
| Discovery.ShippedRandomTaskYieldsNothing | extension/plugins/randomtask_plugin.py:12-81 | as shipped, `RandomCurrentTask` cannot be instantiated, so its file yields no plugin |
| Discovery.FetchSpecMultiplicity | extension/plgloader.py:47-52 | a class is instantiated once per plugin-class name bound to it (twice when it is also exported as `plg`) |
| Discovery.IsPluginClass | extension/plgloader.py:49-51 | definition; properties in `FetchSpecCharacterised` |
| Discovery.Instantiable | extension/plgloader.py:52 | definition; properties in `FetchSpecCharacterised`, `ShippedRandomTaskYieldsNothing` |
| Discovery.FetchSpec | extension/plgloader.py:44-53 | definition; properties in `FetchSpecCharacterised`, `FetchNoneSticks`, `FetchSpecMultiplicity`, `FetchPluginsFromModule` |
| Discovery.LoadSpec | extension/plgloader.py:20-30 | definition; properties in `LoadSpecAppend`, `LoadSpecMembers`, `PluginLoader.Load` |
| Dispatch.Interpret | extension/extensionloader.py:47-72 | a raised action is a failure; a truthy message is delivered whatever the follow-up fields hold; otherwise both follow-up fields make a follow-up; otherwise nothing happens |
| Dispatch.NewJobs | extension/extensionloader.py:58-69 | exactly one one-off job, only for a follow-up, at its datetime, with the same tag and chat |
| Dispatch.NewMessages | extension/extensionloader.py:53-57 | exactly one message, only for a delivery, with that text to that chat |
| Dispatch.ArgsOrEmpty | extension/extensionloader.py:46 | command arguments are the given ones, or empty when missing |
| Dispatch.EventJob | extension/extensionloader.py:75-102 | daily jobs keep the time of day, monthly jobs the day of month and time, one-off jobs the whole datetime; all carry the plugin tag and go to the configured chat |
| Dispatch.EventJobs | extension/extensionloader.py:75-102 | one job per triple, in order |
| Dispatch.CommandHandlers | extension/extensionloader.py:36-40 | one handler per (plugin, command, action) triple, in order, so aliases each get one |
| Dispatch.DailyJobIgnoresDate | extension/extensionloader.py:78-80 | the date of a daily event does not change its job |
| Dispatch.MessageSuppressesFollowUp | extension/extensionloader.py:53-69 | a result with both a message and a follow-up sends the message and schedules nothing |
| Dispatch.Bot.constructor | extension/extensionloader.py:28-30 | the application starts with no handlers, jobs, sent messages or log |
| Dispatch.Bot.RunCommand | extension/extensionloader.py:42-73 | a command from another chat does nothing; otherwise the action gets the arguments or an empty tuple, and the jobs, sent messages and log grow by exactly the effect of its outcome |
| Dispatch.Bot.RunEvent | extension/extensionloader.py:104-132 | the action is called with no arguments; the effect goes to the job's chat, and any new job is a one-off carrying the same tag and chat |
| Dispatch.Bot.Apply | extension/extensionloader.py:49-72 | one effect appends exactly its jobs, messages and log lines |
| Dispatch.Bot.LoadCommands | extension/extensionloader.py:36-40 | the handlers grow by one per triple, in order, and nothing else changes; the `logging.info` line per command is left out with the other log texts |
| Dispatch.Bot.LoadEvents | extension/extensionloader.py:75-102 | the jobs grow by one per triple of the category, in order |
| Dispatch.Bot.LoadDailyEvents | extension/extensionloader.py:75-83 | one `run_daily` job per triple at its time of day |
| Dispatch.Bot.LoadMonthlyEvents | extension/extensionloader.py:94-102 | one `run_monthly` job per triple on its day at its time |
| Dispatch.Bot.LoadDisorderedEvents | extension/extensionloader.py:85-92 | one `run_once` job per triple at its datetime |
| Dispatch.RunChain | extension/extensionloader.py:117-128 | running follow-up jobs one after another keeps the first job's tag and chat at every link |
| Tools.ProtectForHtmlAppend | tools.py:23-26 | escaping distributes over concatenation |
| Tools.ProtectForHtmlChar | tools.py:23-26 | one character is escaped to its entity, or kept |
| Tools.ProtectForHtmlIsEscapeEach | tools.py:23-26 | the ordered replacements of `&`, then `<`, then `>` equal escaping each character independently |
| Tools.UnescapeEscapeEach | tools.py:23-26 | left-to-right decoding undoes per-character escaping |
| Tools.ProtectForHtmlRoundTrip | tools.py:23-26 | decoding the escaped text gives back the input |
| Tools.ProtectForHtmlNoAngles | tools.py:23-26 | the escaped text contains neither `<` nor `>` |
| Tools.ProtectForHtmlUnchanged | tools.py:23-26 | a text with none of `&`, `<`, `>` is returned unchanged |
| Tools.ProtectForHtmlFixedPoint | tools.py:23-26 | a text is returned unchanged iff it has none of `&`, `<`, `>` |
| Tools.ProtectForHtmlNotIdempotent | tools.py:23-26 | escaping a text with a special character twice differs from escaping it once |
| Tools.TimeFromArgs | tools.py:36-47 | a returned error always has a text and a returned time is valid; the case split is stated by `TimeFromArgsFirstBad`, `TimeFromArgsAllInts` and `FirstBadOrAllInts` |
| Tools.TimeOfInts | tools.py:44-47 | `time(h, m, s)` of three integers: OverflowError iff one does not fit a C int; otherwise the time iff all are in range, else the range error of `time()` |
| Tools.TimeFromArgsFirstBad | tools.py:36-43 | when argument k is the first of the first three that is missing or not a usable integer, the result is the help text (missing) or that argument's conversion error: the help text for a non-integer, the digit-limit ValueError text for an over-long one |
| Tools.TimeFromArgsAllInts | tools.py:36-47 | when the first three arguments are usable integers, the result is `time()` of them: raised (OverflowError, not caught) iff one falls outside the C int range, that time iff all are in range, else the range error; extra arguments are ignored |
| Tools.FirstBadOrAllInts | tools.py:36-43 | either the first three arguments are usable integers or there is exactly one first bad argument, never both |
| Tools.TimeFromArgsTooFew | tools.py:36-43 | fewer than three arguments, none of them over-long, give the help text |
| Tools.TimeFromArgsOverflow | tools.py:44-47 | three integers of at most 4300 digits, one outside the C int range, make the call raise |
| Tools.ProtectForHtml | tools.py:23-26 | definition; properties in `ProtectForHtmlIsEscapeEach`, `ProtectForHtmlRoundTrip`, `ProtectForHtmlNoAngles`, `ProtectForHtmlFixedPoint` |
| Tools.TimeRangeError | tools.py:44-47 | the message raised by `time()` is never empty |
| Tools.TimeFromArgsRoundTrip | tg-bot/tools.py:22-27 | every valid time written as three decimal arguments, with any extra arguments after them, parses back to itself |
| Tools.Singleton.constructor | tools.py:28-29 | the memo table starts empty |
| Tools.Singleton.Call | tools.py:30-33 | the first call stores and returns the built instance; every later call returns the stored one and builds nothing |
| Tools.SingletonSharesInstance | tg-bot/tools.py:14-20 | two calls return the same instance, the first call's, whatever the second call's arguments |
| Tools.ValidateUser | tools.py:15-20 | the handler runs, and its result is returned, iff the chat id is the configured one |
| TimerPlugin.DurationSeconds | extension/plugins/timer_plugin.py:30-34 | the duration of a valid time is below one day, and zero only for 00:00:00 |
| TimerPlugin.MinutesSeconds | extension/plugins/timer_plugin.py:44 | the ":MM:SS" tail of a duration's text: two digit pairs whose values are the minutes past the hour and the seconds past the minute |
| TimerPlugin.HoursMinutesSeconds | extension/plugins/timer_plugin.py:44 | "H:MM:SS": the leading digits read back as the whole hours, followed by the ":MM:SS" tail |
| TimerPlugin.TimedeltaStr | extension/plugins/timer_plugin.py:44 | `str(timedelta)` of a duration under a day is its "H:MM:SS" text |
| TimerPlugin.TimedeltaStrWithinDay | extension/plugins/timer_plugin.py:44 | under a day, everything before the last six characters is the hours in decimal, and the last six are the ":MM:SS" tail |
| TimerPlugin.TimedeltaStrDays | extension/plugins/timer_plugin.py:44 | from a day on, the text is the "N day, " or "N days, " prefix for the whole days followed by the text of the remainder |
| TimerPlugin.DurationFields | extension/plugins/timer_plugin.py:30-34 | the duration built from a valid time divides back into exactly its hours, minutes and seconds |
| TimerPlugin.DurationTextNamesTime | extension/plugins/timer_plugin.py:30-44 | the text of a timer set to H:M:S reads back as H hours, M minutes and S seconds |
| TimerPlugin.Beep | extension/plugins/timer_plugin.py:42-45 | the beep's result is the message "Ring!!! " + the duration's text + " is done", with no follow-up |
| TimerPlugin.SetTimer | extension/plugins/timer_plugin.py:26-40 | the call raises iff parsing overflows a C int; other bad arguments give the parse error as message only; a valid time gives "Timer is set", the follow-up instant now plus the duration and the beep for that duration |
| TimerPlugin.SetTimerFollowUpNotEarlier | extension/plugins/timer_plugin.py:36-40 | the follow-up instant is never before now, and strictly after it for a non-zero duration |
| TimerPlugin.TimerBeepNeverScheduled | extension/plugins/timer_plugin.py:36-40 | through the envelope the beep is never scheduled: when `set_timer` returns, its message is sent; when it raises (C int overflow), the failure is logged and nothing is sent |
| TimerPlugin.UserCommands | extension/plugins/timer_plugin.py:14-18 | two distinct commands, both bound to `set_timer` |
| CleanupPlugin.PassedByEnd | extension/plugins/cleanup_plugin.py:30-35 | an event with an end has passed iff its end date is before today, whatever its start |
| CleanupPlugin.TodayIsNotPast | extension/plugins/cleanup_plugin.py:33-34 | the comparison is strict: ending today, or starting today without an end, has not passed; ending yesterday has |
| CleanupPlugin.PassedIds | extension/plugins/cleanup_plugin.py:22-25 | no more ids are archived than there are events |
| CleanupPlugin.PassedIdsAppend | extension/plugins/cleanup_plugin.py:22-25 | the archive calls follow calendar order |
| CleanupPlugin.PassedIdsMembers | extension/plugins/cleanup_plugin.py:22-25 | an id is archived iff some passed event carries it |
| CleanupPlugin.PassedIdsCount | extension/plugins/cleanup_plugin.py:21-28 | the number of archive calls equals the number of calendar positions holding a passed event |
| CleanupPlugin.RemovePastEvents | extension/plugins/cleanup_plugin.py:18-28 | the loop archives exactly the passed events' ids in order, and the message reports their count |
| CleanupPlugin.Declarations | extension/plugins/cleanup_plugin.py:37-55 | one command, `rm_past_events`, and no daily, monthly or one-off events |
| CleanupPlugin.IsEventPassed | extension/plugins/cleanup_plugin.py:30-35 | definition; properties in `PassedByEnd`, `TodayIsNotPast`, `PassedIdsMembers` |
| CleanupPlugin.UserCommands | extension/plugins/cleanup_plugin.py:37-40 | definition; properties in `CleanupPlugin.Declarations` |
| InboxPlugin.RequestedCount | extension/plugins/inboxmanage_plugin.py:29-32 | the first argument when `int()` accepts it, INBOX_LAST_N when it is missing, not an integer, or longer than the 4300-digit limit |
| InboxPlugin.EscapeAll | extension/plugins/inboxmanage_plugin.py:34 | one escaped title per fetched title, each decoding back to the original |
| InboxPlugin.LastTasks | extension/plugins/inboxmanage_plugin.py:28-36 | the message is the header line followed by the escaped titles of the requested count, joined by newlines; no follow-up |
| InboxPlugin.LastTasksStartsWithHeader | extension/plugins/inboxmanage_plugin.py:35-36 | the message always starts with the header, and is the header alone when nothing is fetched |
| InboxPlugin.DeleteLastN | extension/plugins/inboxmanage_plugin.py:38-51 | no argument gives the usage error; a non-integer or an integer over the 4300-digit limit gives "Invalid number of pages: <arg>"; neither archives; an accepted integer n archives n pages once and reports success, a ValueError or the generic failure; nothing is raised |
| InboxPlugin.DeleteLastNRoundTrip | extension/plugins/inboxmanage_plugin.py:44-46 | a decimal count of at most 4300 digits is archived with exactly that count and quoted back in the reply; a longer one archives nothing and is answered "Invalid number of pages" |
| InboxPlugin.Declarations | extension/plugins/inboxmanage_plugin.py:19-26 | three command names bound to `delete_last_n`, two to `last_tasks`, and no events |
| InboxPlugin.UserCommands | extension/plugins/inboxmanage_plugin.py:19-26 | definition; properties in `InboxPlugin.Declarations` |
| RandomTaskPlugin.RandomCurrentTask.constructor | extension/plugins/randomtask_plugin.py:22-25 | a new plugin has no last task |
| RandomTaskPlugin.RandomCurrentTask.RandomTask | extension/plugins/randomtask_plugin.py:27-34 | with no tasks `choice` raises and nothing changes; otherwise the chosen (id, title) pair is remembered and its title is sent escaped |
| RandomTaskPlugin.RandomCurrentTask.CompleteLastTask | extension/plugins/randomtask_plugin.py:36-44 | with a last task, exactly that page is archived and the archived message is sent; without one, no call and the no-task reply; the state is kept |
| RandomTaskPlugin.RandomCurrentTask.DoagainLastTask | extension/plugins/randomtask_plugin.py:46-52 | with a last task, exactly that page is unarchived and `TASK_IS_BACK` is sent; without one, no call |
| RandomTaskPlugin.NoLastTaskUnescaped | extension/plugins/randomtask_plugin.py:41-43 | escaping leaves the no-task reply as it is |
| RandomTaskPlugin.LastTaskScenario | extension/plugins/randomtask_plugin.py:22-52 | a fresh plugin archives nothing; after a pick, `/done` twice archives the same page twice and `/undone` brings back that page |
| RandomTaskPlugin.Declarations | extension/plugins/randomtask_plugin.py:54-79 | four commands, "rtask" and "task" both bound to `random_current_task`, and no events |
| RandomTaskPlugin.RandomCurrentTask.HasLastTask | extension/plugins/randomtask_plugin.py:37 | definition (truthiness of `_last_task_id`); properties in `CompleteLastTask`, `DoagainLastTask`, `LastTaskScenario` |
| RandomTaskPlugin.UserCommands | extension/plugins/randomtask_plugin.py:54-60 | definition; properties in `RandomTaskPlugin.Declarations` |
| NotionQueries.InboxEntries | mynotion.py:44-49 | at most one listed entry per result page |
| NotionQueries.InboxEntriesMembers | mynotion.py:44-49 | (n, title) is listed iff result n (counted from 1, skipped pages included) is a full page with a title, and title is its first text |
| NotionQueries.InboxEntriesIncreasing | mynotion.py:44-49 | the line numbers increase strictly and lie between 1 and the number of results |
| NotionQueries.InboxEntriesAllKept | mynotion.py:44-49 | when every page is kept, line i is result i numbered i + 1 |
| NotionQueries.LastInboxPages | mynotion.py:43-52 | the numbered lines of the kept pages, right-aligned to width 3, then the "see full list" trailer iff there is a next cursor |
| NotionQueries.CalendarSpec | mynotion.py:68-86 | at most one event per page |
| NotionQueries.CalendarSpecMembers | mynotion.py:74-85 | an event is returned iff some page has both a title and a date, and it carries that page's id, first title text, start and end (or none) |
| NotionQueries.GetCalendarEvents | mynotion.py:68-86 | the loop returns exactly the events of the pages with both a title and a date, in query order |
| NotionQueries.TasksSpec | mynotion.py:88-98 | every key is the id of a page with a title, mapped to a first title text of a page with that id |
| NotionQueries.TasksSpecKeys | mynotion.py:93-97 | an id is a key iff some page with that id has a non-empty title |
| NotionQueries.GetCurrentTasks | mynotion.py:88-98 | the loop builds exactly the id-to-title map of the titled pages |
| NotionQueries.TasksSpecLastWins | mynotion.py:93-97 | an id maps to the title of the last titled page carrying it, since later pages overwrite earlier ones |
| NotionQueries.PyIndex | mynotion.py:121 | Python indexing: defined iff -len <= i < len, and a negative index counts from the end |
| NotionQueries.WeekMatchesByLabel | mynotion.py:114-120 | the week test keeps even-week entries in even weeks, odd-week entries in odd weeks, and entries labelled neither in both |
| NotionQueries.WeekMatches | mynotion.py:114-120 | definition; properties in `WeekMatchesByLabel` |
| NotionQueries.ScheduleStep | mynotion.py:106-122 | definition of one page's outcome; properties in `KeptEntry`, `ScheduleSpecMembers` |
| NotionQueries.ScheduleSpec | mynotion.py:101-123 | definition; properties in `ScheduleSpecMembers`, `ScheduleErrSticks`, `UniDailySchedule` |
| NotionQueries.ScheduleSpecMembers | mynotion.py:117-122 | on success an entry is listed iff some page passes the weekday test `WEEKDAYS[label] - 1 == weekday` and the week test, and it is that page's entry |
| NotionQueries.KeptEntry | mynotion.py:121-122 | a kept page with pair 1 to 6 gives (pair, PAIR_SCHEDULE[pair - 1], subject, lecturer, room) |
| NotionQueries.UniDailySchedule | mynotion.py:101-123 | the loop returns the kept entries in query order, or the first error: an unknown weekday label, a missing text, or a pair outside PAIR_SCHEDULE |
| NotionQueries.ScheduleErrSticks | mynotion.py:105-116 | once a page raises, the whole query fails with that error |
| Views.Tagged | extension/extensionloader.py:37 | each (command, action) pair of a plugin becomes one triple tagged with the plugin's name, in order |
| Views.TaggedEvents | extension/extensionloader.py:76 | each (datetime, action) pair of a plugin becomes one triple tagged with the plugin's name, in order |
| Views.CommandViewMembers | extension/plgmanager.py:18-21 | specification only: a triple is in the command view iff an enabled plugin of that name declares that command and action |
| Views.EventViewMembers | extension/extensionloader.py:76-95 | specification only: a triple is in an event view iff an enabled plugin of that name declares that datetime and action in that category |
| TextLists.TextList.Insert | extension/plugins/moriningsummary_plugin.py:106-108 | `list.insert(i, x)`: x lands at index i and later elements shift by one; an index past the end appends |
| TextLists.TextList.Append | extension/plugins/moriningsummary_plugin.py:119 | `list.append(x)` adds x at the end and nothing else |
| Greetings.Choose | extension/plugins/moriningsummary_plugin.py:106 | `choice` returns an element of the pool |
| Greetings.ChooseCanPickAny | extension/plugins/moriningsummary_plugin.py:119 | every pool element can be the chosen one |
| Greetings.WishPool | extension/plugins/moriningsummary_plugin.py:110-118 | the pool is the default wishes, plus three hard-work wishes above 16 lines, plus the weekend wishes on days 5 and 6 or else the Monday wishes on day 0 |
| Greetings.WishPoolMembers | tg-bot/plugins/haveaniceday_plugin.py:18-25 | a wish is in the pool iff it is a default wish, or a hard-work wish for more than 16 lines, or a weekend wish on Saturday or Sunday, or a Monday wish on Monday |
| Greetings.WishListsDisjoint | tg-bot/plugins/haveaniceday_plugin.py:6-9 | the four phrase lists share no phrase |
| Greetings.GoodmorningSpecShape | tg-bot/plugins/goodmorning_plugin.py:13-16 | the list grows by exactly two: a greeting from the phrase list at index 0, the date line at index 1, the old lines after them in order |
| Greetings.WishSpecShape | tg-bot/plugins/haveaniceday_plugin.py:17-26 | the list grows by exactly one pool element at the end; earlier lines are untouched |
| Greetings.SayGoodmorning | extension/plugins/moriningsummary_plugin.py:105-108 | the two inserts leave the list as the greeting, the date line and the old lines |
| Greetings.WishGoodday | extension/plugins/moriningsummary_plugin.py:110-119 | the append leaves the old lines followed by one wish from the pool for that length and weekday |
| Greetings.GoodmorningSpec | tg-bot/plugins/goodmorning_plugin.py:13-16 | definition; properties in `GoodmorningSpecShape` |
| Greetings.WishSpec | tg-bot/plugins/haveaniceday_plugin.py:17-26 | definition; properties in `WishSpecShape`, `WishPoolMembers` |
| MorningSummaryPlugin.FmtEventTimeShape | extension/plugins/moriningsummary_plugin.py:72-82 | the printed length part by part; empty exactly for an event without an end starting at 00:00; dates only when there is an end, the start date first |
| MorningSummaryPlugin.FmtEventTimePlain | extension/plugins/moriningsummary_plugin.py:72-82 | the printed dates and times hold no `&`, `<` or `>` |
| MorningSummaryPlugin.DigitsPlain | extension/plugins/moriningsummary_plugin.py:75 | a printed day/month holds no character that escaping changes |
| MorningSummaryPlugin.TimePlain | extension/plugins/moriningsummary_plugin.py:77 | a printed hour:minute holds no character that escaping changes |
| MorningSummaryPlugin.ListedIffStartedAndNotPassed | extension/plugins/moriningsummary_plugin.py:89-91 | for an event that does not end before it starts, the summary lists it iff it has started and the cleanup would not archive it |
| MorningSummaryPlugin.BulletIsProtected | extension/plugins/moriningsummary_plugin.py:92-93 | the escaped bullet " > " is " &gt; " |
| MorningSummaryPlugin.EventLineIsProtected | extension/plugins/moriningsummary_plugin.py:92-93 | an event line is the escape of bullet, title and printed time |
| MorningSummaryPlugin.ListedEvents | extension/plugins/moriningsummary_plugin.py:88-93 | every listed event is a calendar event that passes the date test |
| MorningSummaryPlugin.ListedEventsMembers | extension/plugins/moriningsummary_plugin.py:88-93 | an event is listed iff it is in the calendar and starts today, or started by today and ends today or later |
| MorningSummaryPlugin.EventLines | extension/plugins/moriningsummary_plugin.py:92-93 | one escaped line per listed event, in order |
| MorningSummaryPlugin.ListedLines | extension/plugins/moriningsummary_plugin.py:88-93 | one line per listed event |
| MorningSummaryPlugin.TaskLineIsProtected | extension/plugins/moriningsummary_plugin.py:101 | a task line is the escape of the bullet followed by that task |
| MorningSummaryPlugin.TaskLines | extension/plugins/moriningsummary_plugin.py:100-101 | one escaped line per shown task, in order |
| MorningSummaryPlugin.CloseLast | extension/plugins/moriningsummary_plugin.py:96 | only the last line changes, by a trailing newline |
| MorningSummaryPlugin.CloseLastAppend | extension/plugins/moriningsummary_plugin.py:102 | closing the whole list closes the last line of its tail |
| MorningSummaryPlugin.SummaryShape | extension/plugins/moriningsummary_plugin.py:94-103 | the calendar header and the closed event block come first iff there are event lines; the closed block of the tasks header and tasks ends the list |
| MorningSummaryPlugin.ListedEventsNonEmpty | extension/plugins/moriningsummary_plugin.py:88-93 | some event is listed iff some calendar event passes the today test |
| MorningSummaryPlugin.BaseSummaryShape | extension/plugins/moriningsummary_plugin.py:84-103 | the calendar header opens the summary iff some event is listed, followed by the event lines with the last closed; then the tasks header and at most five tasks, the first of the shuffled list in order, the last line closed |
| MorningSummaryPlugin.MorningSummary.constructor | extension/plugins/moriningsummary_plugin.py:41-44 | the send time starts at MORNING_MESSAGE_TIME |
| MorningSummaryPlugin.MorningSummary.CollectEventLines | extension/plugins/moriningsummary_plugin.py:88-93 | the first loop collects exactly the lines of the listed events |
| MorningSummaryPlugin.MorningSummary.AppendTaskLines | extension/plugins/moriningsummary_plugin.py:100-101 | the second loop appends one task line per shown task |
| MorningSummaryPlugin.MorningSummary.FinishSummary | extension/plugins/moriningsummary_plugin.py:94-103 | the header and closed event block when there are events, then the tasks header and tasks with the last line closed |
| MorningSummaryPlugin.MorningSummary.GatherBaseSummary | extension/plugins/moriningsummary_plugin.py:84-103 | the method builds exactly the base summary of the calendar and the first five shuffled tasks |
| MorningSummaryPlugin.MorningSummary.MorningMessage | extension/plugins/moriningsummary_plugin.py:121-128 | the message is the base summary after the greeting edit and the wish edit, joined by newlines |
| MorningSummaryPlugin.MorningSummary.ClarifySendTime | extension/plugins/moriningsummary_plugin.py:130-134 | without arguments the current time is reported and nothing changes; otherwise it acts as `set_send_time`, raising where that raises |
| MorningSummaryPlugin.MorningSummary.SetSendTime | extension/plugins/moriningsummary_plugin.py:136-142 | the call raises iff parsing overflows a C int, keeping the send time; other bad arguments give the error text and keep it; valid ones move it and confirm the new time |
| MorningSummaryPlugin.MorningLinesShape | extension/plugins/moriningsummary_plugin.py:105-128 | the message lines are a greeting, the date line, the summary in order and one wish from the pool for the summary plus two lines |
| MorningSummaryPlugin.SendTimeScenario | extension/plugins/moriningsummary_plugin.py:61-64 | a new plugin reports 08:10:00; after `/morning_sendtime 7 0 0` its one daily event is at 07:00:00 |
| MorningSummaryPlugin.MorningSummary.DailyEvents | extension/plugins/moriningsummary_plugin.py:61-64 | definition; properties in `SendTimeScenario` |
| MorningSummaryPlugin.UserCommands | extension/plugins/moriningsummary_plugin.py:46-50 | definition; properties in `MorningSummaryPlugin.Declarations` |
| MorningSummaryPlugin.Declarations | extension/plugins/moriningsummary_plugin.py:46-70 | two commands with distinct names, bound to `morning_message` and `clarify_send_time`; no monthly or one-off events |
| UniSchedulePlugin.FirstLater | extension/plugins/uni_schedule_plugin.py:95-97 | the index found starts later than now and no earlier row does; none is found only when no row starts later |
| UniSchedulePlugin.FormBlocks | extension/plugins/uni_schedule_plugin.py:80-98 | the header and the 38-dash rule come first, then one block per row in order; exactly the first row starting after now carries the marker |
| UniSchedulePlugin.FormScheduleMessage | extension/plugins/uni_schedule_plugin.py:77-99 | the blocks are the wrapped, escaped row lines, the marker before the first later row only, and the text is their join inside `<pre>` and `</pre>` |
| UniSchedulePlugin.MarkerWhenLaterRow | extension/plugins/uni_schedule_plugin.py:95-97 | when some row starts after now, a marker is placed at or before it |
| UniSchedulePlugin.UniSchedule.constructor | extension/plugins/uni_schedule_plugin.py:30-37 | a new plugin has tomorrow-sending on and the send times it was given, by default the configured ones |
| UniSchedulePlugin.UniSchedule.TomorrowAutosend | extension/plugins/uni_schedule_plugin.py:115-118 | with sending on, tomorrow's schedule; off, an empty result |
| UniSchedulePlugin.UniSchedule.ToggleSendTomorrow | extension/plugins/uni_schedule_plugin.py:131-144 | exactly one argument that upper-cases to "ON" or "OFF" sets the flag and confirms; anything else keeps it and answers the invalid-arguments text; the times never change |
| UniSchedulePlugin.UniSchedule.SetSendingTime | extension/plugins/uni_schedule_plugin.py:120-129 | the call raises iff parsing overflows a C int; that and other bad arguments keep today's time, the latter answered with the error text; a valid time replaces today's time only and is confirmed with the reload hint |
| UniSchedulePlugin.UniSchedule.SetTmSendingTime | extension/plugins/uni_schedule_plugin.py:146-155 | the same for tomorrow's send time, raising on C int overflow and leaving the other fields alone |
| UniSchedulePlugin.AutosendOffIsSilent | extension/plugins/uni_schedule_plugin.py:115-118 | with sending off, the autosend event neither sends nor schedules anything |
| UniSchedulePlugin.SettingsScenario | extension/plugins/uni_schedule_plugin.py:63-69 | `daily_events` has exactly two pairs; today's moves to a new time only when the arguments parse, tomorrow's keeps its time, and the toggle decides what the autosend sends |
| UniSchedulePlugin.Declarations | extension/plugins/uni_schedule_plugin.py:39-75 | six commands with distinct names; no monthly or one-off events |
| UniSchedulePlugin.UniSchedule.DailyEvents | extension/plugins/uni_schedule_plugin.py:63-69 | definition; properties in `SettingsScenario` |
| UniSchedulePlugin.UserCommands | extension/plugins/uni_schedule_plugin.py:39-47 | definition; properties in `UniSchedulePlugin.Declarations` |
| MorningPlugins.DefaultName | tg-bot/plugins/interface.py:5-7 | the name is "defaultpluginname" exactly for the base class; the subclasses set their own |
| MorningPlugins.ProcessGuarded | tg-bot/plugins/interface.py:9-14 | a disabled plugin leaves the list as it is; only an enabled base plugin raises; an enabled goodmorning plugin adds the greeting and date line in front, an enabled haveaniceday plugin one wish at the end |
| MorningPlugins.MorningMsgPlugin.constructor | tg-bot/plugins/goodmorning_plugin.py:9-11 | a new plugin of any class is enabled and carries its class's name |
| MorningPlugins.MorningMsgPlugin.SetEnabled | tg-bot/plugins/interface.py:24-26 | the setter sets the flag and nothing else |
| MorningPlugins.MorningMsgPlugin.ProcessMessage | tg-bot/plugins/interface.py:9-14 | it raises iff the plugin is an enabled base plugin, and then the list is unchanged; otherwise the list becomes the guarded edit |
| MorningPlugins.DisabledPluginIsInert | tg-bot/plugins/interface.py:9-11 | a disabled plugin of any class, the base included, neither raises nor changes the list |
| MorningPlugins.Process | tg-bot/plugins/interface.py:13-14 | definition of `_process_message` per class; properties in `ProcessGuarded`, `MorningMsgPlugin.ProcessMessage` |
| MorningManager.LoadKindsFails | tg-bot/plugins/manager.py:17-26 | loading raises iff some file ending in `plugin.py` fails to import |
| MorningManager.LastPluginFile | tg-bot/plugins/manager.py:19-24 | one more plugin file fails the load iff an earlier one did or its own import fails |
| MorningManager.LoadKindsValues | tg-bot/plugins/manager.py:17-26 | a successful load gives one class per plugin file, each the `plg` its module exports, in listing order |
| MorningManager.ShippedDirectoryFails | tg-bot/plugins/manager.py:19-24 | a listing that holds randomtask_plugin.py raises, since that module does not import |
| MorningManager.States | tg-bot/plugins/manager.py:29-30 | the class and flag of each loaded plugin, in order |
| MorningManager.ApplySpecLog | tg-bot/plugins/manager.py:28-34 | an error is logged for plugin j iff it is an enabled base plugin, one line per such plugin |
| MorningManager.ApplySpecSkips | tg-bot/plugins/manager.py:30-34 | a disabled or raising plugin leaves the list as the plugins before it left it, and the loop goes on |
| MorningManager.ShippedPluginsCompose | tg-bot/plugins/manager.py:28-32 | goodmorning then haveaniceday, both enabled, add the greeting and date line in front and one wish at the end, logging nothing |
| MorningManager.FirstNamed | tg-bot/plugins/manager.py:37-40 | the index found is the first plugin with that name; none is found only when no plugin has it |
| MorningManager.PluginManager.constructor | tg-bot/plugins/manager.py:11-15 | a new manager keeps its id and directory and has no loaded plugins yet |
| MorningManager.PluginManager.LoadPlugins | tg-bot/plugins/manager.py:17-26 | it raises iff some plugin file does not import, leaving the manager as it was; otherwise it holds one new, enabled instance per plugin file in listing order |
| MorningManager.PluginManager.PluginsApply | tg-bot/plugins/manager.py:28-34 | before loading it raises and changes nothing; otherwise each enabled plugin runs in order on the same list, disabled ones are skipped, and errors are logged without stopping the loop |
| MorningManager.PluginManager.TurnOffPlugin | tg-bot/plugins/manager.py:36-42 | only the first plugin with that name is disabled; an unknown name is the ValueError and changes nothing; before loading it is an AttributeError |
| MorningManager.LoadFailureSticks | tg-bot/plugins/manager.py:19-24 | once an import has failed, the load fails whatever files follow |
| MorningManager.NewManager | tg-bot/plugins/manager.py:9-15 | every construction advances the counter, and it raises iff the id it took is above 1 |
| MorningManager.ShippedPairLoads | tg-bot/plugins/manager.py:17-26 | goodmorning_plugin.py and haveaniceday_plugin.py load as those two plugins, in that order |
| MorningManager.WishOnlyAfterTurnOff | tg-bot/plugins/manager.py:28-40 | with goodmorning disabled, one application only appends the wish |
| MorningManager.MorningScenario | tg-bot/plugins/manager.py:17-42 | after loading the shipped pair one application adds greeting, date and wish; after `turn_off_plugin("goodmorning")` only the wish is added |
| MorningManager.LoadKinds | tg-bot/plugins/manager.py:17-26 | definition; properties in `LoadKindsFails`, `LoadKindsValues`, `LastPluginFile`, `LoadFailureSticks` |
| MorningManager.ApplySpec | tg-bot/plugins/manager.py:28-34 | definition; properties in `ApplySpecLog`, `ApplySpecSkips`, `PluginManager.PluginsApply` |
| Strings.ParseIntOfIntToString | tools.py:38-40 | an integer written in decimal parses back to itself with the `int()` grammar modelled |
| Strings.ParseInt | tools.py:38-40 | definition of the accepted grammar; properties in `ParseIntOfIntToString` and `PyInt` |
| Strings.PyInt | tools.py:38-40 | `int()`: ValueError "invalid literal" iff the text is not an integer; the value iff it is one of at most 4300 digits; otherwise the digit-limit ValueError with the digit count |
| Strings.PyIntOfIntToString | extension/plugins/inboxmanage_plugin.py:44-46 | a decimal integer converts back to itself iff it has at most 4300 digits, else it hits the digit limit |
| Clock.AddSeconds | extension/plugins/timer_plugin.py:38 | adding a duration gives a valid instant whose time of day moves by the duration modulo a day, never earlier, later for any positive duration; under a day, the date stays unless the time passes midnight, and then it is the next day |
| Clock.TimeStr | extension/plugins/uni_schedule_plugin.py:127 | `%H:%M:%S` prints eight characters: three two-digit fields separated by colons, reading back as the hour, the minute and the second |
| Clock.DayMonthStr | extension/plugins/moriningsummary_plugin.py:75-79 | `" %d/%m"` prints a space, the day as two digits, a slash and the month as two digits |
| Clock.HourMinuteStr | extension/plugins/moriningsummary_plugin.py:77-81 | `" %H:%M"` prints a space, the hour as two digits, a colon and the minute as two digits |
| Clock.DtFromTime | extension/plugins/uni_schedule_plugin.py:64-65 | the datetime made from a time of day carries exactly that time |

## Left out

- bot.py and tg-bot/bot.py: Telegram polling, handler wiring and the retry of Notion calls are I/O glue and are not part of this model. There is no reschedule routine; `/reschedule_notifications` exists only in the help text at bot.py:43.
- tg-bot/notion.py, tg-bot/plugins/moriningsummary_pugin.py, tg-bot/plugins/uni_schedule_plugin.py and tg-bot/plugins/randomtask_plugin.py are not part of this model. The first is an older async client. The other three can never load: their file name fails the `plugin.py` filter, or they import names `plugins.interface` does not define. Their logic is covered by the extension versions.
- config.py, tg-bot/config.py, extension/plgtyples.py and extension/__init__.py: only the constants the model uses are copied (PAIR_SCHEDULE, WEEKDAYS, INBOX_LAST_N, the three default times).
- `extension.exttypes`, which every extension plugin imports, is not part of this model. Its type aliases stand for plain sequences.
- `dt_from_time`, which the plugins import from `tools`, is not defined in tools.py. `Clock.DtFromTime` pairs the time with a fixed placeholder date; the plugins only ever read the time back.
- uni_schedule_plugin.py imports `Notion` from a module `notion` that is not part of this model, and calls `uni_daily_schedule(day)` with one argument where mynotion.py takes two. The fetched rows are an input of `UniSchedulePlugin.FormScheduleMessage`, already sorted as `sorted()` leaves them.
- The marker test `datetime.now(TIMEZONE) < dt_from_time(ptime)` compares an aware datetime with one on the placeholder date. It is modelled as a comparison of times of day, which is what the code evidently means.
- `ExtensionLoader.__init__` takes a `plugins_dir` it ignores (it uses PLUGINS_DIR), and bot.py:110 calls it with no argument. `load_plugins` (a `PluginLoader.load` followed by `set_plugins`) is not composed as one member: the loaded instances are values in `Discovery` and objects in `Registry`, and `set_plugins` reads `p.name`, which `AbstractPlugin` does not define (`Registry.AllNamed` makes that read a precondition).
- The manager views `user_commands`, `daily_events`, `monthly_events` and `disorder_events` that `ExtensionLoader` reads do not exist (`user_commands` and `scheduled_events` are stubs). Module `Views` specifies them from their consumer and is not a model of existing code.
- Every extension plugin calls `super().__init__(name)` on an `__init__` that takes no argument, and none that is shown defines `plg_events`. So as written none instantiates (`Discovery.ShippedRandomTaskYieldsNothing`). The plugin modules are modelled as if they could be built.
- The envelope's `send_message` in the event callback (extension/extensionloader.py:113) is not awaited. Each envelope is modelled as running to completion, and async scheduling and concurrency are not modelled.
- Log message texts are not modelled. The log holds which plugin and action failed or ran; the `logging.info` line of `load_commands` (extension/extensionloader.py:40) adds nothing to it.
- Python's full `int()` grammar (surrounding whitespace, underscores, non-ASCII digits) is not modelled. `Strings.ParseInt` accepts an optional sign and ASCII digits, and everything else is "not an int".
- `Strings.PyInt` applies the default digit limit of CPython 3.11 and later (4300 digits), counting every digit including leading zeros; a changed `sys.set_int_max_str_digits` setting is not modelled.
- ToggleSendTomorrow: `str.upper()` is modelled by `Strings.AsciiUpper`, on ASCII letters only. Python's full Unicode case mapping (for example "oﬀ" with the ligature U+FB00 upper-cases to "OFF") is not captured, so `UniSchedulePlugin.ToggleArg` rejects such arguments where Python accepts them.
- `strftime("%d %b %A")` of the morning date line is an input text (`Greetings.Env.dateText`). Month and day names are not modelled.
- `help` of every plugin (a fixed dictionary of texts) and `AbstractPlugin._get_datetime_now` (the clock) are left out.
- InboxPlugin.LastTasks: the query of `last_inbox_pages` is the total function `fetch`, so a Notion call that raises (the exception leaves `last_tasks` uncaught and the envelope logs it) is not a case of this member; the envelope's `Raised` outcome covers it.
- mynotion.py: `create_page_in_inbox`, `archive_n_pages`, `archive_page` and `unarchive_page` are Notion API calls and are left out. Their effects appear as call records or outcomes in the plugins. Pagination is flattened into one sequence of pages.
- `UniSchedulePlugin.TodayResult`, `TomorrowResult` and `YesterdayResult` only prefix the schedule text. The date each one asks for is not modelled, since the schedule is an input. `tomorrow_autosend` calls `self.tomorrow(self, *args)`, passing `self` twice; the extra argument is ignored by `*args`.
- `MorningSummaryPlugin.FmtEventTime` has no contract of its own. Its properties are the lemmas `FmtEventTimeShape` and `FmtEventTimePlain`.
- `_gather_base_summary` and `form_schedule_message` are each split into helper methods (`CollectEventLines`, `AppendTaskLines`, `FinishSummary`; `FormBlocks`). The helpers do the same steps in the same order.
- tg-bot/plugins/manager.py annotates `_loaded_plugins` as a dict but assigns a list. It is modelled as the list. `os.path.splitext(name)[0]` is modelled as `Discovery.ModuleName`, which agrees with it on every name ending in `.py`.
- `MorningManager.Importer` yields one of the three plugin classes or fails. A module whose `plg` is some other object, and a class whose construction raises, are not modelled.
- `MorningManager.ApplySpecLog`: only the base class's NotImplementedError is modelled as an error inside `plugins_apply`. The two shipped plugins always choose from non-empty lists and cannot raise there.
- `PluginBase.Plugin.IsEnabled` only reads the field; its behaviour is stated by `PluginBase.PluginLifecycle`.
