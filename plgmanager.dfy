/** extension/plgmanager.py: the registry of loaded plugins, keyed by name,
    and the class-level counter that allows two instances at most. */
module Registry {
  import opened Wrappers
  import opened PluginBase

  /** The class attribute `_ids = count(0)`, shared by every construction. */
  class InstanceCounter {
    var next: nat

    constructor ()
      ensures next == 0
    {
      next := 0;
    }
  }

  /** The precondition of `set_plugins`: it reads `p.name` of every plugin,
      an attribute AbstractPlugin does not define. */
  predicate AllNamed(ps: seq<Plugin>)
  {
    forall i :: 0 <= i < |ps| ==> ps[i].name.Some?
  }

  /** `{p.name: p for p in plugins}`: later plugins overwrite earlier ones
      that have the same name. */
  function NameMap(ps: seq<Plugin>): (m: map<string, Plugin>)
    requires AllNamed(ps)
    ensures forall n :: n in m ==> m[n].name == Some(n)
    ensures forall i :: 0 <= i < |ps| ==> ps[i].name.value in m
    ensures forall n :: n in m ==> exists i :: 0 <= i < |ps| && m[n] == ps[i]
    decreases |ps|
  {
    if ps == [] then map[]
    else
      var init := ps[..|ps| - 1];
      var last := ps[|ps| - 1];
      var m := NameMap(init)[last.name.value := last];
      assert forall n :: n in NameMap(init) ==> exists i :: 0 <= i < |init| && NameMap(init)[n] == init[i];
      assert forall i :: 0 <= i < |init| ==> init[i] == ps[i];
      m
  }

  /** With duplicate names the last plugin wins. */
  lemma {:induction false} NameMapLastWins(ps: seq<Plugin>, i: nat)
    requires AllNamed(ps) && i < |ps|
    requires forall j :: i < j < |ps| ==> ps[j].name != ps[i].name
    ensures NameMap(ps)[ps[i].name.value] == ps[i]
    decreases |ps|
  {
    if i < |ps| - 1 {
      var init := ps[..|ps| - 1];
      assert init[i] == ps[i];
      NameMapLastWins(init, i);
    }
  }

  class PluginManager {
    const id: nat
    var loaded: map<string, Plugin>

    /** Every plugin is filed under its own name. */
    ghost predicate Valid()
      reads this
    {
      forall n :: n in loaded ==> loaded[n].name == Some(n)
    }

    constructor (id: nat, plugins: seq<Plugin>)
      requires AllNamed(plugins)
      ensures Valid() && this.id == id && loaded == NameMap(plugins)
    {
      this.id := id;
      loaded := NameMap(plugins);
    }

    /** `set_plugins`: the whole mapping is replaced; no earlier plugin
        survives unless it is passed again. */
    method SetPlugins(plugins: seq<Plugin>)
      requires AllNamed(plugins)
      modifies this
      ensures Valid() && loaded == NameMap(plugins)
    {
      loaded := NameMap(plugins);
    }

    /** `_get_plugin`: the plugin, or `None` where Python raises KeyError. */
    function GetPlugin(name: string): (r: Option<Plugin>)
      reads this
      ensures r.Some? <==> name in loaded
      ensures r.Some? ==> r.value == loaded[name]
    {
      if name in loaded then Some(loaded[name]) else None
    }

    /** `enable_plugin`: enables exactly the plugin with that name; an
        unknown name is a KeyError (`found` false) and changes nothing. */
    method EnablePlugin(name: string) returns (found: bool)
      requires Valid()
      modifies if name in loaded then {loaded[name]} else {}
      ensures found <==> name in loaded
      ensures found ==> loaded[name].enabled == Some(true)
      ensures forall n :: n in loaded && n != name ==> loaded[n].enabled == old(loaded[n].enabled)
    {
      var p := GetPlugin(name);
      found := p.Some?;
      if found {
        p.value.Enable();
      }
    }

    /** `diable_plugin` (so spelt in the source): disables exactly the
        plugin with that name; an unknown name changes nothing. */
    method DisablePlugin(name: string) returns (found: bool)
      requires Valid()
      modifies if name in loaded then {loaded[name]} else {}
      ensures found <==> name in loaded
      ensures found ==> loaded[name].enabled == Some(false)
      ensures forall n :: n in loaded && n != name ==> loaded[n].enabled == old(loaded[n].enabled)
    {
      var p := GetPlugin(name);
      found := p.Some?;
      if found {
        p.value.Disable();
      }
    }
  }

  /** `PluginManager(plugins)`: takes the next id, which advances even when
      the construction then fails; ids above 1 raise RuntimeError. */
  method NewPluginManager(ids: InstanceCounter, plugins: seq<Plugin>) returns (m: Option<PluginManager>)
    requires ids.next <= 1 ==> AllNamed(plugins)
    modifies ids
    ensures ids.next == old(ids.next) + 1
    ensures m.None? <==> old(ids.next) > 1
    ensures m.Some? ==> fresh(m.value) && m.value.Valid() && m.value.id == old(ids.next) && m.value.loaded == NameMap(plugins)
  {
    var id := ids.next;
    ids.next := ids.next + 1;
    if id > 1 {
      m := None;
    } else {
      var manager := new PluginManager(id, plugins);
      m := Some(manager);
    }
  }

  /** Constructions 0 and 1 succeed with an empty registry when given no
      plugins; the third raises RuntimeError. */
  method ThirdManagerFails() returns (first: bool, second: bool, third: bool, firstEmpty: bool)
    ensures first && second && !third && firstEmpty
  {
    var ids := new InstanceCounter();
    var m0 := NewPluginManager(ids, []);
    var m1 := NewPluginManager(ids, []);
    var m2 := NewPluginManager(ids, []);
    first, second, third := m0.Some?, m1.Some?, m2.Some?;
    firstEmpty := m0.Some? && m0.value.loaded == map[];
  }
}
