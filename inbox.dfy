/** extension/plugins/inboxmanage_plugin.py: listing and deleting the
    latest inbox pages. `fetch` stands for `last_inbox_pages` and
    `archive` for the outcome of `archive_n_pages`. */
module InboxPlugin {
  import opened Wrappers
  import opened Strings
  import opened Clock
  import opened Actions
  import opened Tools

  const NAME: string := "InboxManagement"
  const DELETE_LAST_N: ActionId := Method(NAME, "delete_last_n")
  const LAST_TASKS: ActionId := Method(NAME, "last_tasks")

  /** INBOX_LAST_N of config.py. */
  const INBOX_LAST_N: int := 10

  const LIST_HEADER: string := "<b>List of tasks</b>"
  const USAGE_ERROR: string := "Error: you must specify number of pages.Example \n<pre>delete_last 10 </pre>"
  const DELETION_FAILED: string := "Some error occured during deletion"

  /** The number of pages `last_tasks` asks for: the first argument when
      `int()` converts it, INBOX_LAST_N when it is missing or `int()`
      raises ValueError on it, too many digits included. */
  function RequestedCount(args: seq<string>): (n: int)
    ensures |args| >= 1 && PyInt(args[0]).IntOk? ==> n == PyInt(args[0]).value
    ensures |args| == 0 || !PyInt(args[0]).IntOk? ==> n == INBOX_LAST_N
  {
    if |args| >= 1 && PyInt(args[0]).IntOk? then PyInt(args[0]).value else INBOX_LAST_N
  }

  /** `map(protect_for_html, titles)`. */
  function EscapeAll(titles: seq<string>): (r: seq<string>)
    ensures |r| == |titles|
    ensures forall i :: 0 <= i < |titles| ==> Unescape(r[i]) == titles[i]
  {
    var r := seq(|titles|, i requires 0 <= i < |titles| => ProtectForHtml(titles[i]));
    forall i | 0 <= i < |titles|
      ensures Unescape(r[i]) == titles[i]
    {
      ProtectForHtmlRoundTrip(titles[i]);
    }
    r
  }

  /** `last_tasks`: the header, then every fetched title escaped, one per
      line; nothing is scheduled. */
  function LastTasks(args: seq<string>, fetch: int -> seq<string>): (r: ActionResult)
    ensures r.nextDatetime.None? && r.nextAction.None?
    ensures r.message == Some(Join([LIST_HEADER] + EscapeAll(fetch(RequestedCount(args))), "\n"))
  {
    var titles := EscapeAll(fetch(RequestedCount(args)));
    MessageResult(Join([LIST_HEADER] + titles, "\n"))
  }

  /** The message always opens with the header line. */
  lemma LastTasksStartsWithHeader(args: seq<string>, fetch: int -> seq<string>)
    ensures StartsWith(LastTasks(args, fetch).message.value, LIST_HEADER)
    ensures fetch(RequestedCount(args)) == [] ==> LastTasks(args, fetch).message.value == LIST_HEADER
  {
    var titles := EscapeAll(fetch(RequestedCount(args)));
    JoinStartsWithFirst(LIST_HEADER, titles, "\n");
  }

  /** How one `archive_n_pages(n)` call ends. */
  datatype ArchiveOutcome = ArchiveOk | ArchiveValueError | ArchiveOtherError

  /** The result of `delete_last_n` and the `archive_n_pages` calls it made. */
  datatype Deletion = Deletion(result: ActionResult, calls: seq<int>)

  /** `delete_last_n`: no argument is a usage error, an argument `int()`
      refuses (not a literal, or too many digits) is reported back, and an integer `n` asks for `n` pages to be archived
      once; every failure becomes a message, none is raised. */
  function DeleteLastN(args: seq<string>, archive: int -> ArchiveOutcome): (d: Deletion)
    ensures d.result.message.Some? && d.result.nextDatetime.None? && d.result.nextAction.None?
    ensures |args| == 0 ==> d.result.message.value == USAGE_ERROR && d.calls == []
    ensures |args| >= 1 && !PyInt(args[0]).IntOk? ==>
              d.result.message.value == "Invalid number of pages: " + args[0] && d.calls == []
    ensures |args| >= 1 && PyInt(args[0]).IntOk? ==>
              var n := PyInt(args[0]).value;
              d.calls == [n] &&
              (archive(n) == ArchiveOk ==> d.result.message.value == IntToString(n) + " pages have been deleted") &&
              (archive(n) == ArchiveValueError ==> d.result.message.value == "Invalid number of pages: " + args[0]) &&
              (archive(n) == ArchiveOtherError ==> d.result.message.value == DELETION_FAILED)
  {
    if |args| < 1 then Deletion(MessageResult(USAGE_ERROR), [])
    else match PyInt(args[0])
      case IntInvalid => Deletion(MessageResult("Invalid number of pages: " + args[0]), [])
      case IntTooLong(_) => Deletion(MessageResult("Invalid number of pages: " + args[0]), [])
      case IntOk(n) =>
        var text := match archive(n)
          case ArchiveOk => IntToString(n) + " pages have been deleted"
          case ArchiveValueError => "Invalid number of pages: " + args[0]
          case ArchiveOtherError => DELETION_FAILED;
        Deletion(MessageResult(text), [n])
  }

  /** A count written in decimal with at most MAX_STR_DIGITS digits is
      archived with exactly that count, and the reply quotes it back; a
      longer one is refused before any call. */
  lemma DeleteLastNRoundTrip(n: int, rest: seq<string>, archive: int -> ArchiveOutcome)
    requires archive(n) == ArchiveOk
    ensures var d := DeleteLastN([IntToString(n)] + rest, archive);
            if |NatToString(if n < 0 then -n else n)| <= MAX_STR_DIGITS then
              d.calls == [n] && d.result.message == Some(IntToString(n) + " pages have been deleted")
            else
              d.calls == [] && d.result.message == Some("Invalid number of pages: " + IntToString(n))
  {
    PyIntOfIntToString(n);
  }

  function UserCommands(): seq<(string, ActionId)>
  {
    [("delete_last", DELETE_LAST_N), ("delete", DELETE_LAST_N), ("del_last", DELETE_LAST_N),
     ("inbox", LAST_TASKS), ("last", LAST_TASKS)]
  }

  function DailyEvents(): seq<(DateTime, ActionId)> { [] }
  function MonthlyEvents(): seq<(DateTime, ActionId)> { [] }
  function DisorderedEvents(): seq<(DateTime, ActionId)> { [] }

  /** Three names for `delete_last_n`, two for `last_tasks`, no events. */
  lemma Declarations()
    ensures forall c :: c in UserCommands() ==>
              (c.1 == DELETE_LAST_N <==> c.0 in {"delete_last", "delete", "del_last"}) &&
              (c.1 == LAST_TASKS <==> c.0 in {"inbox", "last"})
    ensures |UserCommands()| == 5
    ensures DailyEvents() == [] && MonthlyEvents() == [] && DisorderedEvents() == []
  {
  }
}
