/** tg-bot/plugins/interface.py, goodmorning_plugin.py and
    haveaniceday_plugin.py: plugins that each edit the list of lines of the
    morning message in place, guarded by an enabled flag. */
module MorningPlugins {
  import opened Wrappers
  import opened TextLists
  import opened Greetings

  /** The three classes: the `MorningMsgPlugin` base itself and its two
      subclasses. */
  datatype PluginKind = BasePlugin | Goodmorning | Haveaniceday

  /** `_name` as each constructor leaves it. */
  function DefaultName(kind: PluginKind): (name: string)
    ensures kind == BasePlugin <==> name == "defaultpluginname"
  {
    match kind
    case BasePlugin => "defaultpluginname"
    case Goodmorning => "goodmorning"
    case Haveaniceday => "haveaniceday"
  }

  /** The text of the `NotImplementedError` the base `_process_message`
      raises. */
  const NOT_IMPLEMENTED_MSG: string := "Subclasses must implement this method"

  /** `_process_message`: the new list, or `None` when it raises. */
  function Process(kind: PluginKind, items: seq<string>, env: Env): Option<seq<string>>
  {
    match kind
    case BasePlugin => None
    case Goodmorning => Some(GoodmorningSpec(items, env))
    case Haveaniceday => Some(WishSpec(items, env))
  }

  /** `process_message`: a disabled plugin leaves the list as it is. */
  function ProcessGuarded(kind: PluginKind, enabled: bool, items: seq<string>, env: Env): (r: Option<seq<string>>)
    ensures !enabled ==> r == Some(items)
    ensures r.None? <==> enabled && kind == BasePlugin
    ensures enabled && kind == Goodmorning ==>
              r.Some? && |r.value| == |items| + 2 && r.value[0] in GOOD_MORNING_PHRASES &&
              r.value[1] == DateLine(env.dateText) && r.value[2..] == items
    ensures enabled && kind == Haveaniceday ==>
              r.Some? && |r.value| == |items| + 1 && r.value[..|items|] == items &&
              r.value[|items|] in WishPool(|items|, env.weekday)
  {
    GoodmorningSpecShape(items, env);
    WishSpecShape(items, env);
    if enabled then Process(kind, items, env) else Some(items)
  }

  class MorningMsgPlugin {
    const kind: PluginKind
    const name: string
    var enabled: bool

    /** A new plugin of any class is enabled and carries its class's name. */
    constructor (kind: PluginKind)
      ensures this.kind == kind && name == DefaultName(kind) && enabled
    {
      this.kind := kind;
      name := DefaultName(kind);
      enabled := true;
    }

    /** The `enabled` setter. */
    method SetEnabled(value: bool)
      modifies this
      ensures enabled == value
    {
      enabled := value;
    }

    /** `process_message` on the list `message`, with the clock and random
        choice `env`; `raised` is the `NotImplementedError` of the base
        class, in which case the list is unchanged. */
    method ProcessMessage(message: TextList, env: Env) returns (raised: bool)
      modifies message
      ensures raised <==> ProcessGuarded(kind, enabled, old(message.items), env).None?
      ensures raised ==> message.items == old(message.items)
      ensures !raised ==> message.items == ProcessGuarded(kind, enabled, old(message.items), env).value
    {
      raised := false;
      if enabled {
        match kind
        case BasePlugin =>
          raised := true;
        case Goodmorning =>
          SayGoodmorning(message, env);
        case Haveaniceday =>
          WishGoodday(message, env);
      }
    }
  }

  /** A disabled plugin of any class, the base included, neither raises
      nor changes the list; disabling is the only state the setter
      changes. */
  method DisabledPluginIsInert(kind: PluginKind, items: seq<string>, env: Env) returns (raised: bool, after: seq<string>)
    ensures !raised && after == items
  {
    var p := new MorningMsgPlugin(kind);
    p.SetEnabled(false);
    var message := new TextList(items);
    raised := p.ProcessMessage(message, env);
    after := message.items;
  }
}
