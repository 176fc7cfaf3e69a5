/** extension/plugins/randomtask_plugin.py: picks a random current task and
    remembers it, so that `/done` can archive it and `/undone` bring it
    back. The Notion calls are returned as call records. */
module RandomTaskPlugin {
  import opened Wrappers
  import opened Clock
  import opened Actions
  import opened Tools

  const NAME: string := "RandomCurrentTask"
  const RANDOM_CURRENT_TASK: ActionId := Method(NAME, "random_current_task")
  const COMPLETE_LAST_TASK: ActionId := Method(NAME, "complete_last_task")
  const DOAGAIN_LAST_TASK: ActionId := Method(NAME, "doagain_last_task")

  const NO_LAST_TASK: string := "There are no last random task!"
  const TASK_IS_BACK: string := "The task is back!"

  /** A Notion page update: archive or unarchive the page with that id. */
  datatype PageCall = Archive(id: string) | Unarchive(id: string)

  function ArchivedMessage(title: string): string
  {
    ProtectForHtml("The task \"" + title + "\" is archived!")
  }

  class RandomCurrentTask {
    /** `_last_task_id`: `None` until a task has been picked. */
    var lastTaskId: Option<string>
    /** `_last_task_name`: only read when the id is set, and set with it. */
    var lastTaskName: string

    constructor ()
      ensures lastTaskId.None?
    {
      lastTaskId := None;
      lastTaskName := "";
    }

    /** Python truthiness of `self._last_task_id`: None and "" are false. */
    predicate HasLastTask()
      reads this
    {
      lastTaskId.Some? && lastTaskId.value != ""
    }

    /** `random_current_task` given `tuple(tasks.items())` and the index
        `choice` draws: with no tasks `choice` raises and nothing changes;
        otherwise the chosen pair is remembered and its title is sent
        escaped. */
    method RandomTask(items: seq<(string, string)>, seed: nat) returns (o: Outcome)
      modifies this
      ensures items == [] ==> o == Raised && lastTaskId == old(lastTaskId) && lastTaskName == old(lastTaskName)
      ensures items != [] ==>
                var chosen := items[seed % |items|];
                lastTaskId == Some(chosen.0) && lastTaskName == chosen.1 &&
                o == Returned(MessageResult(ProtectForHtml(chosen.1)))
    {
      if items == [] {
        return Raised;
      }
      var chosen := items[seed % |items|];
      lastTaskId := Some(chosen.0);
      lastTaskName := chosen.1;
      o := Returned(MessageResult(ProtectForHtml(chosen.1)));
    }

    /** `complete_last_task`: archives exactly the remembered page, without
        forgetting it. */
    method CompleteLastTask() returns (calls: seq<PageCall>, r: ActionResult)
      ensures HasLastTask() ==> calls == [Archive(lastTaskId.value)] && r == MessageResult(ArchivedMessage(lastTaskName))
      ensures !HasLastTask() ==> calls == [] && r == MessageResult(ProtectForHtml(NO_LAST_TASK))
    {
      if HasLastTask() {
        calls := [Archive(lastTaskId.value)];
        r := MessageResult(ArchivedMessage(lastTaskName));
      } else {
        calls := [];
        r := MessageResult(ProtectForHtml(NO_LAST_TASK));
      }
    }

    /** `doagain_last_task`: unarchives exactly the remembered page. */
    method DoagainLastTask() returns (calls: seq<PageCall>, r: ActionResult)
      ensures HasLastTask() ==> calls == [Unarchive(lastTaskId.value)] && r == MessageResult(TASK_IS_BACK)
      ensures !HasLastTask() ==> calls == [] && r == MessageResult(NO_LAST_TASK)
    {
      if HasLastTask() {
        calls := [Unarchive(lastTaskId.value)];
        r := MessageResult(TASK_IS_BACK);
      } else {
        calls := [];
        r := MessageResult(NO_LAST_TASK);
      }
    }
  }

  /** The escaped no-task reply is the plain one: it has nothing to escape. */
  lemma NoLastTaskUnescaped()
    ensures ProtectForHtml(NO_LAST_TASK) == NO_LAST_TASK
  {
    ProtectForHtmlUnchanged(NO_LAST_TASK);
  }

  /** A fresh plugin archives nothing; after a pick, `/done` twice
      archives the picked page twice and `/undone` brings back that same
      page. */
  method LastTaskScenario(items: seq<(string, string)>, seed: nat) returns (before: seq<PageCall>, first: seq<PageCall>, second: seq<PageCall>, back: seq<PageCall>)
    requires items != [] && items[seed % |items|].0 != ""
    ensures before == []
    ensures first == second == [Archive(items[seed % |items|].0)]
    ensures back == [Unarchive(items[seed % |items|].0)]
  {
    var p := new RandomCurrentTask();
    var reply: ActionResult;
    before, reply := p.CompleteLastTask();
    var picked := p.RandomTask(items, seed);
    first, reply := p.CompleteLastTask();
    second, reply := p.CompleteLastTask();
    back, reply := p.DoagainLastTask();
  }

  function UserCommands(): seq<(string, ActionId)>
  {
    [("rtask", RANDOM_CURRENT_TASK), ("task", RANDOM_CURRENT_TASK),
     ("done", COMPLETE_LAST_TASK), ("undone", DOAGAIN_LAST_TASK)]
  }

  function DailyEvents(): seq<(DateTime, ActionId)> { [] }
  function MonthlyEvents(): seq<(DateTime, ActionId)> { [] }
  function DisorderedEvents(): seq<(DateTime, ActionId)> { [] }

  /** "rtask" and "task" are aliases of one action; there are no events. */
  lemma Declarations()
    ensures |UserCommands()| == 4
    ensures UserCommands()[0].1 == UserCommands()[1].1 == RANDOM_CURRENT_TASK
    ensures DailyEvents() == [] && MonthlyEvents() == [] && DisorderedEvents() == []
  {
  }
}
