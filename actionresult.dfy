/** extension/actionresult.py: the value every plugin action returns, and
    the two ways an action call can end. */
module Actions {
  import opened Wrappers
  import opened Clock

  /** An action a plugin exposes. Plugin methods are named by plugin and
      method; the timer's `timer_beep` closure is identified by the
      duration it was made for. */
  datatype ActionId = Method(plugin: string, name: string) | TimerBeep(seconds: nat)

  /** The dataclass, fields in declaration order: message, next_datetime,
      next_action. Each field is independent of the others. */
  datatype ActionResult = ActionResult(
    message: Option<string>,
    nextDatetime: Option<DateTime>,
    nextAction: Option<ActionId>)

  /** `ActionResult()`. */
  function EmptyResult(): (r: ActionResult)
    ensures r.message.None? && r.nextDatetime.None? && r.nextAction.None?
  {
    ActionResult(None, None, None)
  }

  /** `ActionResult(text)`: the one positional argument is the message. */
  function MessageResult(text: string): (r: ActionResult)
    ensures r.message == Some(text) && r.nextDatetime.None? && r.nextAction.None?
  {
    ActionResult(Some(text), None, None)
  }

  /** Python truthiness of `act_result.message`: `None` and `""` are false. */
  predicate HasMessage(r: ActionResult)
  {
    r.message.Some? && r.message.value != ""
  }

  /** Both follow-up fields are set. */
  predicate HasFollowUp(r: ActionResult)
  {
    r.nextAction.Some? && r.nextDatetime.Some?
  }

  /** How one call of an action ends: it raised, or it returned a result. */
  datatype Outcome = Raised | Returned(result: ActionResult)

  /** Dataclass equality compares the fields in order. */
  lemma ActionResultEquality(a: ActionResult, b: ActionResult)
    ensures a == b <==> (a.message == b.message && a.nextDatetime == b.nextDatetime && a.nextAction == b.nextAction)
  {
  }

  /** Nothing ties the follow-up fields together: either can be set alone,
      and such a result has no follow-up. */
  lemma FollowUpFieldsIndependent(dt: DateTime, a: ActionId)
    ensures !HasFollowUp(ActionResult(None, Some(dt), None))
    ensures !HasFollowUp(ActionResult(None, None, Some(a)))
    ensures HasFollowUp(ActionResult(None, Some(dt), Some(a)))
  {
  }
}
