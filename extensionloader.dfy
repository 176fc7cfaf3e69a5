/** extension/extensionloader.py: the envelope around every action call
    and the registration of commands and events with the bot's job queue.

    The envelope calls the action, then: if it raised, logs and stops; if
    the message is truthy, sends it; otherwise (`elif`), if both follow-up
    fields are set, adds one one-off job that runs the follow-up under the
    same plugin tag; otherwise does nothing. */
module Dispatch {
  import opened Wrappers
  import opened Clock
  import opened Actions
  import Tools

  /** The three ways the job queue repeats a job. */
  datatype JobKind = Once(when: DateTime) | Daily(time: TimeOfDay) | Monthly(day: int, time: TimeOfDay)

  /** A job: when it runs, the plugin tag it carries (`name=`), the chat it
      reports to and the action its event callback calls. */
  datatype Job = Job(kind: JobKind, tag: string, chat: int, action: ActionId)

  /** A command handler: the command and the callback's plugin and action. */
  datatype Handler = Handler(command: string, plugin: string, action: ActionId)

  datatype Sent = Sent(chat: int, text: string)

  datatype LogEntry = ActionFailed(plugin: string, action: ActionId) | ActionExecuted(plugin: string, action: ActionId)

  /** The (plugin name, command, action) triples `load_commands` reads from
      the manager. */
  datatype CommandTriple = CommandTriple(plugin: string, command: string, action: ActionId)

  /** The (plugin name, datetime, action) triples the `load_*_events` loops
      read from the manager. */
  datatype EventTriple = EventTriple(plugin: string, when: DateTime, action: ActionId)

  datatype EventCategory = DailyEvents | MonthlyEvents | DisorderedEvents

  /** What the envelope does with one outcome. */
  datatype Effect = Fail | Deliver(text: string) | FollowUp(when: DateTime, action: ActionId) | NoEffect

  function Interpret(o: Outcome): (e: Effect)
    ensures o.Raised? <==> e.Fail?
    ensures o.Returned? && HasMessage(o.result) ==> e == Deliver(o.result.message.value)
    ensures o.Returned? && !HasMessage(o.result) && HasFollowUp(o.result) ==>
              e == FollowUp(o.result.nextDatetime.value, o.result.nextAction.value)
    ensures o.Returned? && !HasMessage(o.result) && !HasFollowUp(o.result) ==> e == NoEffect
  {
    match o
    case Raised => Fail
    case Returned(r) =>
      if HasMessage(r) then Deliver(r.message.value)
      else if !(r.nextAction.None? || r.nextDatetime.None?) then FollowUp(r.nextDatetime.value, r.nextAction.value)
      else NoEffect
  }

  /** The jobs an effect adds: one one-off job carrying the same tag and
      chat, for a follow-up only. */
  function NewJobs(e: Effect, tag: string, chat: int): (js: seq<Job>)
    ensures |js| <= 1
    ensures |js| == 1 <==> e.FollowUp?
    ensures forall j :: j in js ==> j.tag == tag && j.chat == chat && j == Job(Once(e.when), tag, chat, e.action)
  {
    if e.FollowUp? then [Job(Once(e.when), tag, chat, e.action)] else []
  }

  /** The messages an effect sends: its text, to the originating chat. */
  function NewMessages(e: Effect, chat: int): (ms: seq<Sent>)
    ensures |ms| == 1 <==> e.Deliver?
    ensures |ms| <= 1 && forall m :: m in ms ==> m == Sent(chat, e.text)
  {
    if e.Deliver? then [Sent(chat, e.text)] else []
  }

  function NewLog(e: Effect, plugin: string, action: ActionId): seq<LogEntry>
  {
    match e
    case Fail => [ActionFailed(plugin, action)]
    case NoEffect => [ActionExecuted(plugin, action)]
    case _ => []
  }

  /** `context.args or ()`: missing arguments are an empty tuple. */
  function ArgsOrEmpty(args: Option<seq<string>>): (r: seq<string>)
    ensures args.Some? ==> r == args.value
    ensures args.None? ==> r == []
  {
    if args.Some? && args.value != [] then args.value else []
  }

  /** The job a `load_*_events` loop adds for one triple: daily jobs keep
      only the time, monthly jobs the day of month and the time, one-off
      jobs the whole datetime; all go to the configured chat. */
  function EventJob(t: EventTriple, category: EventCategory, chat: int): (j: Job)
    ensures j.tag == t.plugin && j.chat == chat && j.action == t.action
    ensures category == DailyEvents ==> j.kind == Daily(t.when.time)
    ensures category == MonthlyEvents ==> j.kind == Monthly(t.when.date.day, t.when.time)
    ensures category == DisorderedEvents ==> j.kind == Once(t.when)
  {
    var kind := match category
      case DailyEvents => Daily(t.when.time)
      case MonthlyEvents => Monthly(t.when.date.day, t.when.time)
      case DisorderedEvents => Once(t.when);
    Job(kind, t.plugin, chat, t.action)
  }

  /** The jobs one `load_*_events` call adds, one per triple, in order. */
  function EventJobs(ts: seq<EventTriple>, category: EventCategory, chat: int): (js: seq<Job>)
    ensures |js| == |ts|
    ensures forall i :: 0 <= i < |ts| ==> js[i] == EventJob(ts[i], category, chat)
    decreases |ts|
  {
    if ts == [] then []
    else EventJobs(ts[..|ts| - 1], category, chat) + [EventJob(ts[|ts| - 1], category, chat)]
  }

  /** The handlers `load_commands` adds, one per triple, in order; aliases
      of one action each get their own handler. */
  function CommandHandlers(ts: seq<CommandTriple>): (hs: seq<Handler>)
    ensures |hs| == |ts|
    ensures forall i :: 0 <= i < |ts| ==> hs[i] == Handler(ts[i].command, ts[i].plugin, ts[i].action)
    decreases |ts|
  {
    if ts == [] then []
    else CommandHandlers(ts[..|ts| - 1]) + [Handler(ts[|ts| - 1].command, ts[|ts| - 1].plugin, ts[|ts| - 1].action)]
  }

  /** A daily job depends on the time part only: two triples that differ
      only in the date give the same job. */
  lemma DailyJobIgnoresDate(t: EventTriple, d: Date, chat: int)
    ensures EventJob(t, DailyEvents, chat) == EventJob(EventTriple(t.plugin, DateTime(d, t.when.time), t.action), DailyEvents, chat)
  {
  }

  /** A message wins over a follow-up: a result with both never schedules. */
  lemma MessageSuppressesFollowUp(r: ActionResult, tag: string, chat: int)
    requires HasMessage(r) && HasFollowUp(r)
    ensures NewJobs(Interpret(Returned(r)), tag, chat) == []
    ensures NewMessages(Interpret(Returned(r)), chat) == [Sent(chat, r.message.value)]
  {
  }

  /** The application: its command handlers, job queue, sent messages and
      log. `allowedChat` is TG_CHAT_ID. */
  class Bot {
    const allowedChat: int
    var handlers: seq<Handler>
    var jobs: seq<Job>
    var outbox: seq<Sent>
    var log: seq<LogEntry>

    constructor (allowedChat: int)
      ensures this.allowedChat == allowedChat
      ensures handlers == [] && jobs == [] && outbox == [] && log == []
    {
      this.allowedChat := allowedChat;
      handlers, jobs, outbox, log := [], [], [], [];
    }

    /** The callback of `make_command_callback(action, plugin)` receiving a
        command from `chat` with `args`; `oracle` gives the outcome of each
        action call. `validate_user` drops commands from other chats. */
    method RunCommand(plugin: string, action: ActionId, chat: int, args: Option<seq<string>>,
                      oracle: (ActionId, seq<string>) -> Outcome)
      modifies this
      ensures handlers == old(handlers)
      ensures chat != allowedChat ==> jobs == old(jobs) && outbox == old(outbox) && log == old(log)
      ensures chat == allowedChat ==>
                var e := Interpret(oracle(action, ArgsOrEmpty(args)));
                jobs == old(jobs) + NewJobs(e, plugin, chat) &&
                outbox == old(outbox) + NewMessages(e, chat) &&
                log == old(log) + NewLog(e, plugin, action)
    {
      var called := Tools.ValidateUser(chat, allowedChat, () => oracle(action, ArgsOrEmpty(args)));
      if called.Some? {
        Apply(Interpret(called.value), plugin, action, chat);
      }
    }

    /** The callback of `create_event_callback(job.action, job.tag)` when
        the job runs: the action is called with no arguments, replies go to
        the job's chat, and a follow-up job carries the same tag. */
    method RunEvent(job: Job, oracle: (ActionId, seq<string>) -> Outcome)
      modifies this
      ensures handlers == old(handlers)
      ensures var e := Interpret(oracle(job.action, []));
                jobs == old(jobs) + NewJobs(e, job.tag, job.chat) &&
                outbox == old(outbox) + NewMessages(e, job.chat) &&
                log == old(log) + NewLog(e, job.tag, job.action)
      ensures forall j :: j in jobs[|old(jobs)|..] ==> j.tag == job.tag && j.chat == job.chat && j.kind.Once?
    {
      Apply(Interpret(oracle(job.action, [])), job.tag, job.action, job.chat);
    }

    method Apply(e: Effect, plugin: string, action: ActionId, chat: int)
      modifies this
      ensures handlers == old(handlers)
      ensures jobs == old(jobs) + NewJobs(e, plugin, chat)
      ensures outbox == old(outbox) + NewMessages(e, chat)
      ensures log == old(log) + NewLog(e, plugin, action)
    {
      match e {
        case Fail =>
          log := log + [ActionFailed(plugin, action)];
        case Deliver(text) =>
          outbox := outbox + [Sent(chat, text)];
        case FollowUp(when, next) =>
          jobs := jobs + [Job(Once(when), plugin, chat, next)];
        case NoEffect =>
          log := log + [ActionExecuted(plugin, action)];
      }
    }

    /** `load_commands`: one handler per triple, in order. */
    method LoadCommands(ts: seq<CommandTriple>)
      modifies this
      ensures handlers == old(handlers) + CommandHandlers(ts)
      ensures jobs == old(jobs) && outbox == old(outbox) && log == old(log)
    {
      var i := 0;
      while i < |ts|
        invariant 0 <= i <= |ts|
        invariant handlers == old(handlers) + CommandHandlers(ts[..i])
        invariant jobs == old(jobs) && outbox == old(outbox) && log == old(log)
      {
        handlers := handlers + [Handler(ts[i].command, ts[i].plugin, ts[i].action)];
        assert ts[..i + 1][..i] == ts[..i];
        i := i + 1;
      }
      assert ts[..i] == ts;
    }

    method LoadEvents(ts: seq<EventTriple>, category: EventCategory)
      modifies this
      ensures jobs == old(jobs) + EventJobs(ts, category, allowedChat)
      ensures handlers == old(handlers) && outbox == old(outbox) && log == old(log)
    {
      var i := 0;
      while i < |ts|
        invariant 0 <= i <= |ts|
        invariant jobs == old(jobs) + EventJobs(ts[..i], category, allowedChat)
        invariant handlers == old(handlers) && outbox == old(outbox) && log == old(log)
      {
        assert ts[..i + 1][..i] == ts[..i];
        assert EventJobs(ts[..i + 1], category, allowedChat) ==
               EventJobs(ts[..i], category, allowedChat) + [EventJob(ts[i], category, allowedChat)];
        jobs := jobs + [EventJob(ts[i], category, allowedChat)];
        i := i + 1;
      }
      assert ts[..i] == ts;
    }

    /** `load_daily_events`: `run_daily` at `dt.time()` per triple. */
    method LoadDailyEvents(ts: seq<EventTriple>)
      modifies this
      ensures jobs == old(jobs) + EventJobs(ts, DailyEvents, allowedChat)
      ensures handlers == old(handlers) && outbox == old(outbox) && log == old(log)
    {
      LoadEvents(ts, DailyEvents);
    }

    /** `load_monthly_events`: `run_monthly` on `dt.day` at `dt.time()`. */
    method LoadMonthlyEvents(ts: seq<EventTriple>)
      modifies this
      ensures jobs == old(jobs) + EventJobs(ts, MonthlyEvents, allowedChat)
      ensures handlers == old(handlers) && outbox == old(outbox) && log == old(log)
    {
      LoadEvents(ts, MonthlyEvents);
    }

    /** `load_disordered_events`: `run_once` at `dt`. */
    method LoadDisorderedEvents(ts: seq<EventTriple>)
      modifies this
      ensures jobs == old(jobs) + EventJobs(ts, DisorderedEvents, allowedChat)
      ensures handlers == old(handlers) && outbox == old(outbox) && log == old(log)
    {
      LoadEvents(ts, DisorderedEvents);
    }
  }

  /** A chain of follow-ups: running the jobs an event produces, again and
      again, keeps the plugin tag and the chat at every link. */
  method RunChain(start: Job, oracle: (ActionId, seq<string>) -> Outcome, links: nat) returns (b: Bot, fired: seq<Job>)
    ensures |fired| <= links + 1 && (|fired| > 0 ==> fired[0] == start)
    ensures forall j :: j in fired ==> j.tag == start.tag && j.chat == start.chat
    ensures forall j :: j in b.jobs ==> j.tag == start.tag && j.chat == start.chat
  {
    b := new Bot(start.chat);
    var next := start;
    fired := [];
    var k := 0;
    while k <= links
      invariant fresh(b)
      invariant next.tag == start.tag && next.chat == start.chat
      invariant |fired| == k && k <= links + 1 && (|fired| > 0 ==> fired[0] == start)
      invariant |fired| == 0 ==> next == start
      invariant forall j :: j in fired ==> j.tag == start.tag && j.chat == start.chat
      invariant forall j :: j in b.jobs ==> j.tag == start.tag && j.chat == start.chat
    {
      var before := |b.jobs|;
      b.RunEvent(next, oracle);
      fired := fired + [next];
      k := k + 1;
      if |b.jobs| == before {
        break;
      }
      next := b.jobs[|b.jobs| - 1];
    }
  }
}
