/** The aggregation views `ExtensionLoader` reads from the manager
    (`user_commands`, `daily_events`, `monthly_events`, `disorder_events`).
    The manager does not implement them (`user_commands` and
    `scheduled_events` are stubs and the other three are absent), so this
    module is a specification shaped by their consumer, not a model of
    existing code: one triple per declaration of every enabled plugin, in
    plugin order and then in declaration order. */
module Views {
  import opened Clock
  import opened Actions
  import opened Dispatch

  /** What one plugin declares: its tag, whether it is enabled, its
      (command, action) pairs and its (datetime, action) pairs per
      category. */
  datatype PluginDecl = PluginDecl(
    name: string,
    enabled: bool,
    commands: seq<(string, ActionId)>,
    daily: seq<(DateTime, ActionId)>,
    monthly: seq<(DateTime, ActionId)>,
    disordered: seq<(DateTime, ActionId)>)

  function Tagged(name: string, cs: seq<(string, ActionId)>): (ts: seq<CommandTriple>)
    ensures |ts| == |cs|
    ensures forall i :: 0 <= i < |cs| ==> ts[i] == CommandTriple(name, cs[i].0, cs[i].1)
  {
    seq(|cs|, i requires 0 <= i < |cs| => CommandTriple(name, cs[i].0, cs[i].1))
  }

  function TaggedEvents(name: string, es: seq<(DateTime, ActionId)>): (ts: seq<EventTriple>)
    ensures |ts| == |es|
    ensures forall i :: 0 <= i < |es| ==> ts[i] == EventTriple(name, es[i].0, es[i].1)
  {
    seq(|es|, i requires 0 <= i < |es| => EventTriple(name, es[i].0, es[i].1))
  }

  function Declared(p: PluginDecl, category: EventCategory): seq<(DateTime, ActionId)>
  {
    match category
    case DailyEvents => p.daily
    case MonthlyEvents => p.monthly
    case DisorderedEvents => p.disordered
  }

  /** The `user_commands` view. */
  function CommandView(ps: seq<PluginDecl>): seq<CommandTriple>
    decreases |ps|
  {
    if ps == [] then []
    else
      var p := ps[|ps| - 1];
      CommandView(ps[..|ps| - 1]) + (if p.enabled then Tagged(p.name, p.commands) else [])
  }

  /** The `daily_events`, `monthly_events` and `disorder_events` views. */
  function EventView(ps: seq<PluginDecl>, category: EventCategory): seq<EventTriple>
    decreases |ps|
  {
    if ps == [] then []
    else
      var p := ps[|ps| - 1];
      EventView(ps[..|ps| - 1], category) + (if p.enabled then TaggedEvents(p.name, Declared(p, category)) else [])
  }

  /** A command is in the view iff some enabled plugin declares it, tagged
      with that plugin's name. */
  lemma {:induction false} CommandViewMembers(ps: seq<PluginDecl>, t: CommandTriple)
    ensures t in CommandView(ps) <==>
              exists k :: 0 <= k < |ps| && ps[k].enabled && ps[k].name == t.plugin && (t.command, t.action) in ps[k].commands
    decreases |ps|
  {
    if ps != [] {
      var init := ps[..|ps| - 1];
      var p := ps[|ps| - 1];
      CommandViewMembers(init, t);
      assert forall k :: 0 <= k < |init| ==> init[k] == ps[k];
      if t in CommandView(ps) && t !in CommandView(init) {
        var i :| 0 <= i < |p.commands| && Tagged(p.name, p.commands)[i] == t;
        assert p.commands[i] == (t.command, t.action);
      }
      if exists k :: 0 <= k < |ps| && ps[k].enabled && ps[k].name == t.plugin && (t.command, t.action) in ps[k].commands {
        var k :| 0 <= k < |ps| && ps[k].enabled && ps[k].name == t.plugin && (t.command, t.action) in ps[k].commands;
        if k == |ps| - 1 {
          var i :| 0 <= i < |p.commands| && p.commands[i] == (t.command, t.action);
          assert Tagged(p.name, p.commands)[i] == t;
        }
      }
    }
  }

  /** An event is in a view iff some enabled plugin declares it in that
      category, tagged with that plugin's name. */
  lemma {:induction false} EventViewMembers(ps: seq<PluginDecl>, category: EventCategory, t: EventTriple)
    ensures t in EventView(ps, category) <==>
              exists k :: 0 <= k < |ps| && ps[k].enabled && ps[k].name == t.plugin && (t.when, t.action) in Declared(ps[k], category)
    decreases |ps|
  {
    if ps != [] {
      var init := ps[..|ps| - 1];
      var p := ps[|ps| - 1];
      EventViewMembers(init, category, t);
      assert forall k :: 0 <= k < |init| ==> init[k] == ps[k];
      var es := Declared(p, category);
      if t in EventView(ps, category) && t !in EventView(init, category) {
        var i :| 0 <= i < |es| && TaggedEvents(p.name, es)[i] == t;
        assert es[i] == (t.when, t.action);
      }
      if exists k :: 0 <= k < |ps| && ps[k].enabled && ps[k].name == t.plugin && (t.when, t.action) in Declared(ps[k], category) {
        var k :| 0 <= k < |ps| && ps[k].enabled && ps[k].name == t.plugin && (t.when, t.action) in Declared(ps[k], category);
        if k == |ps| - 1 {
          var i :| 0 <= i < |es| && es[i] == (t.when, t.action);
          assert TaggedEvents(p.name, es)[i] == t;
        }
      }
    }
  }
}
