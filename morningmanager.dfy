/** tg-bot/plugins/manager.py: the manager of the morning-message plugins.
    It lists the plugin directory, makes one instance per plugin module,
    runs the enabled ones over one list of lines and can switch one off by
    name. The directory listing, the module imports and the clock and
    random source of each plugin are inputs. */
module MorningManager {
  import opened Wrappers
  import opened TextLists
  import opened Greetings
  import opened MorningPlugins
  import Discovery
  import Registry

  // ---------------------------------------------------------------------
  // load_plugins

  /** What importing `plugins.<name>` and reading its `plg` gives: the
      class it binds, or `None` when the import or the lookup raises. */
  type Importer = string -> Option<PluginKind>

  /** The classes `load_plugins` instantiates for `listing`, in listing
      order, or `None` when importing some plugin file raises. */
  function LoadKinds(listing: seq<string>, importer: Importer): Option<seq<PluginKind>>
    decreases |listing|
  {
    if listing == [] then Some([])
    else
      var rest := LoadKinds(listing[..|listing| - 1], importer);
      var f := listing[|listing| - 1];
      if !Discovery.IsPluginFile(f) then rest
      else if rest.None? then None
      else match importer(Discovery.ModuleName(f))
        case None => None
        case Some(k) => Some(rest.value + [k])
  }

  /** Some file of `files` does not import. */
  predicate AnyImportFails(files: seq<string>, importer: Importer)
  {
    exists j :: 0 <= j < |files| && importer(Discovery.ModuleName(files[j])).None?
  }

  /** Loading fails iff some file ending in `plugin.py` does not import. */
  lemma {:induction false} LoadKindsFails(listing: seq<string>, importer: Importer)
    ensures LoadKinds(listing, importer).None? <==> AnyImportFails(Discovery.PluginFiles(listing), importer)
    decreases |listing|
  {
    if listing != [] {
      var init := listing[..|listing| - 1];
      var f := listing[|listing| - 1];
      LoadKindsFails(init, importer);
      var files := Discovery.PluginFiles(listing);
      var prior := Discovery.PluginFiles(init);
      assert files == prior + (if Discovery.IsPluginFile(f) then [f] else []);
      if Discovery.IsPluginFile(f) {
        LastPluginFile(prior, f, files, importer);
        if LoadKinds(init, importer).None? {
          assert AnyImportFails(prior, importer);
        } else if importer(Discovery.ModuleName(f)).None? {
          assert LoadKinds(listing, importer).None?;
        } else {
          assert LoadKinds(listing, importer).Some?;
          assert !AnyImportFails(prior, importer);
        }
      } else {
        assert files == prior;
      }
    }
  }

  /** The failure cases of one more plugin file: an earlier failure, or
      this file's own import. */
  lemma LastPluginFile(prior: seq<string>, f: string, files: seq<string>, importer: Importer)
    requires files == prior + [f]
    ensures AnyImportFails(files, importer) <==>
              AnyImportFails(prior, importer) || importer(Discovery.ModuleName(f)).None?
  {
    if AnyImportFails(prior, importer) {
      var j :| 0 <= j < |prior| && importer(Discovery.ModuleName(prior[j])).None?;
      assert files[j] == prior[j];
    }
    if importer(Discovery.ModuleName(f)).None? {
      assert files[|prior|] == f;
    }
    if AnyImportFails(files, importer) {
      var j :| 0 <= j < |files| && importer(Discovery.ModuleName(files[j])).None?;
      if j < |prior| {
        assert files[j] == prior[j];
      }
    }
  }

  /** A successful load yields one class per plugin file, in order. */
  lemma {:induction false} LoadKindsValues(listing: seq<string>, importer: Importer)
    requires LoadKinds(listing, importer).Some?
    ensures var files := Discovery.PluginFiles(listing);
            var r := LoadKinds(listing, importer).value;
            |r| == |files| &&
            forall j :: 0 <= j < |files| ==> importer(Discovery.ModuleName(files[j])).Some? && r[j] == importer(Discovery.ModuleName(files[j])).value
    decreases |listing|
  {
    if listing != [] {
      var init := listing[..|listing| - 1];
      var f := listing[|listing| - 1];
      var files := Discovery.PluginFiles(listing);
      var prior := Discovery.PluginFiles(init);
      assert files == prior + (if Discovery.IsPluginFile(f) then [f] else []);
      assert LoadKinds(init, importer).Some?;
      LoadKindsValues(init, importer);
    }
  }

  /** The importer of the shipped directory: only the two morning plugins
      import; randomtask_plugin.py and uni_schedule_plugin.py ask
      `plugins.interface` for names it does not define. */
  function ShippedImporter(name: string): Option<PluginKind>
  {
    if name == "goodmorning_plugin" then Some(Goodmorning)
    else if name == "haveaniceday_plugin" then Some(Haveaniceday)
    else None
  }

  /** Any listing that holds randomtask_plugin.py fails to load with the
      shipped modules. */
  lemma ShippedDirectoryFails(listing: seq<string>)
    requires "randomtask_plugin.py" in listing
    ensures LoadKinds(listing, ShippedImporter).None?
  {
    var f := "randomtask_plugin.py";
    assert Discovery.IsPluginFile(f) by {
      assert f[|f| - |"plugin.py"|..] == "plugin.py";
    }
    var files := Discovery.PluginFiles(listing);
    assert f in files;
    var j :| 0 <= j < |files| && files[j] == f;
    assert Discovery.ModuleName(f) == "randomtask_plugin";
    LoadKindsFails(listing, ShippedImporter);
  }

  // ---------------------------------------------------------------------
  // plugins_apply

  /** One line `logging.error(err)` writes: which plugin raised, and the
      error text. */
  datatype LoggedError = LoggedError(plugin: nat, message: string)

  /** The enabled flag and class of each loaded plugin. */
  function States(ps: seq<MorningMsgPlugin>): (ss: seq<(PluginKind, bool)>)
    reads set p | p in ps
    ensures |ss| == |ps|
    ensures forall j :: 0 <= j < |ps| ==> ss[j] == (ps[j].kind, ps[j].enabled)
  {
    seq(|ps|, j reads set p | p in ps requires 0 <= j < |ps| => (ps[j].kind, ps[j].enabled))
  }

  /** The list after `plugins_apply` and the errors it logged, for plugin
      states `ss` and the environment `env(j)` of the j-th plugin. */
  function ApplySpec(ss: seq<(PluginKind, bool)>, items: seq<string>, env: nat -> Env): (seq<string>, seq<LoggedError>)
    decreases |ss|
  {
    if ss == [] then (items, [])
    else
      var k := |ss| - 1;
      var (before, log) := ApplySpec(ss[..k], items, env);
      if !ss[k].1 then (before, log)
      else match Process(ss[k].0, before, env(k))
        case None => (before, log + [LoggedError(k, NOT_IMPLEMENTED_MSG)])
        case Some(after) => (after, log)
  }

  function CountBase(ss: seq<(PluginKind, bool)>): nat
    decreases |ss|
  {
    if ss == [] then 0
    else CountBase(ss[..|ss| - 1]) + (if ss[|ss| - 1] == (BasePlugin, true) then 1 else 0)
  }

  /** A plugin's error is logged iff it is an enabled base plugin; one
      line per such plugin, each carrying the base error text. */
  lemma {:induction false} ApplySpecLog(ss: seq<(PluginKind, bool)>, items: seq<string>, env: nat -> Env, e: LoggedError)
    ensures e in ApplySpec(ss, items, env).1 <==>
              e.plugin < |ss| && ss[e.plugin] == (BasePlugin, true) && e.message == NOT_IMPLEMENTED_MSG
    ensures |ApplySpec(ss, items, env).1| == CountBase(ss)
    decreases |ss|
  {
    if ss != [] {
      var k := |ss| - 1;
      ApplySpecLog(ss[..k], items, env, e);
    }
  }

  /** A raising plugin, and a disabled one, leave the list exactly as the
      plugins before it left it: the error does not stop the others. */
  lemma ApplySpecSkips(ss: seq<(PluginKind, bool)>, kind: PluginKind, enabled: bool, items: seq<string>, env: nat -> Env)
    requires kind == BasePlugin || !enabled
    ensures ApplySpec(ss + [(kind, enabled)], items, env).0 == ApplySpec(ss, items, env).0
  {
    assert (ss + [(kind, enabled)])[..|ss|] == ss;
  }

  /** Both shipped plugins enabled, in the order goodmorning then
      haveaniceday: a greeting and the date line in front, a wish at the
      end, nothing logged. */
  lemma ShippedPluginsCompose(items: seq<string>, env: nat -> Env)
    ensures ApplySpec([(Goodmorning, true), (Haveaniceday, true)], items, env) ==
              (WishSpec(GoodmorningSpec(items, env(0)), env(1)), [])
  {
    var ss := [(Goodmorning, true), (Haveaniceday, true)];
    assert ss[..1] == [(Goodmorning, true)];
    assert ss[..1][..0] == [];
  }

  /** The result of `turn_off_plugin`. */
  datatype TurnOff = TurnedOff | NotFound | NotLoaded

  /** The index of the first plugin named `name`. */
  function FirstNamed(ps: seq<MorningMsgPlugin>, name: string): (r: Option<nat>)
    ensures r.Some? ==> r.value < |ps| && ps[r.value].name == name && forall j :: 0 <= j < r.value ==> ps[j].name != name
    ensures r.None? ==> forall j :: 0 <= j < |ps| ==> ps[j].name != name
    decreases |ps|
  {
    if ps == [] then None
    else if ps[0].name == name then Some(0)
    else
      var rest := FirstNamed(ps[1..], name);
      assert forall j :: 1 <= j < |ps| ==> ps[j] == ps[1..][j - 1];
      if rest.None? then None else Some(rest.value + 1)
  }

  predicate Distinct(ps: seq<MorningMsgPlugin>)
  {
    forall i, j :: 0 <= i < j < |ps| ==> ps[i] != ps[j]
  }

  class PluginManager {
    const id: nat
    const pluginDirectory: string
    /** `_loaded_plugins`, which exists only once `load_plugins` ran. */
    var pluginsLoaded: bool
    var loaded: seq<MorningMsgPlugin>

    /** The instances `load_plugins` made are distinct objects. */
    predicate Valid()
      reads this
    {
      (pluginsLoaded ==> Distinct(loaded)) && (!pluginsLoaded ==> loaded == [])
    }

    constructor (id: nat, pluginDirectory: string)
      ensures this.id == id && this.pluginDirectory == pluginDirectory
      ensures !pluginsLoaded && loaded == [] && Valid()
    {
      this.id := id;
      this.pluginDirectory := pluginDirectory;
      pluginsLoaded := false;
      loaded := [];
    }

    /** `load_plugins` for the listing of the plugin directory: one new,
        enabled instance per plugin file in listing order, or, when an
        import raises, the state left as it was. */
    method LoadPlugins(listing: seq<string>, importer: Importer) returns (raised: bool)
      requires Valid()
      modifies this
      ensures Valid()
      ensures raised <==> LoadKinds(listing, importer).None?
      ensures raised ==> pluginsLoaded == old(pluginsLoaded) && loaded == old(loaded)
      ensures !raised ==>
                pluginsLoaded && |loaded| == |LoadKinds(listing, importer).value| &&
                forall j :: 0 <= j < |loaded| ==>
                  fresh(loaded[j]) && loaded[j].kind == LoadKinds(listing, importer).value[j] &&
                  loaded[j].name == DefaultName(loaded[j].kind) && loaded[j].enabled
    {
      var plugins: seq<MorningMsgPlugin> := [];
      var i := 0;
      while i < |listing|
        invariant 0 <= i <= |listing|
        invariant unchanged(this)
        invariant LoadKinds(listing[..i], importer).Some?
        invariant |plugins| == |LoadKinds(listing[..i], importer).value| && Distinct(plugins)
        invariant forall j :: 0 <= j < |plugins| ==>
                    fresh(plugins[j]) && plugins[j].kind == LoadKinds(listing[..i], importer).value[j] &&
                    plugins[j].name == DefaultName(plugins[j].kind) && plugins[j].enabled
      {
        var pluginFile := listing[i];
        assert listing[..i + 1][..i] == listing[..i];
        if Discovery.IsPluginFile(pluginFile) {
          var pluginName := Discovery.ModuleName(pluginFile);
          var pluginClass := importer(pluginName);
          if pluginClass.None? {
            assert listing[..i + 1][i] == pluginFile;
            LoadFailureSticks(listing, i + 1, importer);
            return true;
          }
          var p := new MorningMsgPlugin(pluginClass.value);
          plugins := plugins + [p];
        }
        i := i + 1;
      }
      assert listing[..i] == listing;
      pluginsLoaded := true;
      loaded := plugins;
      raised := false;
    }

    /** `plugins_apply` on the list `data`, with `env(j)` the clock and
        random source of the j-th plugin: every enabled plugin runs in
        order on the same list; a plugin that raises is logged and the
        loop goes on. Before `load_plugins` it raises AttributeError. */
    method PluginsApply(data: TextList, env: nat -> Env) returns (raised: bool, log: seq<LoggedError>)
      requires Valid()
      modifies data
      ensures raised <==> !pluginsLoaded
      ensures raised ==> data.items == old(data.items) && log == []
      ensures !raised ==> (data.items, log) == ApplySpec(States(loaded), old(data.items), env)
    {
      if !pluginsLoaded {
        return true, [];
      }
      raised := false;
      log := [];
      ghost var start := data.items;
      var i := 0;
      while i < |loaded|
        invariant 0 <= i <= |loaded|
        invariant (data.items, log) == ApplySpec(States(loaded)[..i], start, env)
      {
        var plugin := loaded[i];
        assert States(loaded)[..i + 1][..i] == States(loaded)[..i];
        if plugin.enabled {
          var failed := plugin.ProcessMessage(data, env(i));
          if failed {
            log := log + [LoggedError(i, NOT_IMPLEMENTED_MSG)];
          }
        }
        i := i + 1;
      }
      assert States(loaded)[..i] == States(loaded);
    }

    /** `turn_off_plugin`: the first plugin with that name is disabled
        and every other flag is kept; an unknown name is the ValueError,
        and before `load_plugins` the AttributeError. */
    method TurnOffPlugin(name: string) returns (r: TurnOff)
      requires Valid()
      modifies set p | p in loaded
      ensures !pluginsLoaded <==> r == NotLoaded
      ensures pluginsLoaded ==> (r == NotFound <==> FirstNamed(loaded, name).None?)
      ensures forall j :: 0 <= j < |loaded| ==>
                loaded[j].enabled == (if pluginsLoaded && FirstNamed(loaded, name) == Some(j) then false else old(loaded[j].enabled))
    {
      if !pluginsLoaded {
        return NotLoaded;
      }
      var k := FirstNamed(loaded, name);
      if k.None? {
        return NotFound;
      }
      loaded[k.value].SetEnabled(false);
      r := TurnedOff;
    }
  }

  /** An import that fails stays a failure whatever files follow. */
  lemma LoadFailureSticks(listing: seq<string>, n: nat, importer: Importer)
    requires 0 < n <= |listing|
    requires LoadKinds(listing[..n], importer).None?
    ensures LoadKinds(listing, importer).None?
    decreases |listing| - n
  {
    if n < |listing| {
      assert listing[..n + 1][..n] == listing[..n];
      LoadFailureSticks(listing, n + 1, importer);
    } else {
      assert listing[..n] == listing;
    }
  }

  /** `PluginManager(dir)`: construction 2 and later raise RuntimeError
      after taking their id. */
  method NewManager(ids: Registry.InstanceCounter, pluginDirectory: string) returns (m: Option<PluginManager>)
    modifies ids
    ensures ids.next == old(ids.next) + 1
    ensures m.None? <==> old(ids.next) > 1
    ensures m.Some? ==> fresh(m.value) && m.value.Valid() && m.value.id == old(ids.next) && !m.value.pluginsLoaded
  {
    var id := ids.next;
    ids.next := ids.next + 1;
    if id > 1 {
      return None;
    }
    var manager := new PluginManager(id, pluginDirectory);
    m := Some(manager);
  }

  /** The shipped pair of files loads as a goodmorning and a
      haveaniceday plugin, in that order. */
  lemma ShippedPairLoads()
    ensures LoadKinds(["goodmorning_plugin.py", "haveaniceday_plugin.py"], ShippedImporter) == Some([Goodmorning, Haveaniceday])
  {
    var g, h := "goodmorning_plugin.py", "haveaniceday_plugin.py";
    assert Discovery.IsPluginFile(g) by { assert g[|g| - 9..] == "plugin.py"; }
    assert Discovery.IsPluginFile(h) by { assert h[|h| - 9..] == "plugin.py"; }
    assert Discovery.ModuleName(g) == "goodmorning_plugin";
    assert Discovery.ModuleName(h) == "haveaniceday_plugin";
    assert ShippedImporter(Discovery.ModuleName(g)) == Some(Goodmorning);
    assert ShippedImporter(Discovery.ModuleName(h)) == Some(Haveaniceday);
    var one := [g];
    assert one[..0] == [];
    assert LoadKinds([], ShippedImporter) == Some([]);
    assert one[|one| - 1] == g;
    assert [] + [Goodmorning] == [Goodmorning];
    assert LoadKinds(one, ShippedImporter) == Some([Goodmorning]);
    var two := [g, h];
    assert two[..1] == one && two[|two| - 1] == h;
    assert [Goodmorning] + [Haveaniceday] == [Goodmorning, Haveaniceday];
    assert LoadKinds(two, ShippedImporter) == Some([Goodmorning, Haveaniceday]);
  }

  /** With goodmorning switched off, one application only adds the wish. */
  lemma WishOnlyAfterTurnOff(items: seq<string>, env: nat -> Env)
    ensures ApplySpec([(Goodmorning, false), (Haveaniceday, true)], items, env) == (WishSpec(items, env(1)), [])
  {
    var ss := [(Goodmorning, false), (Haveaniceday, true)];
    assert ss[..1] == [(Goodmorning, false)] && ss[..1][..0] == [];
  }

  /** The shipped pair: after loading goodmorning_plugin.py and
      haveaniceday_plugin.py, one application adds the greeting, the date
      and a wish; after `turn_off_plugin("goodmorning")` only the wish is
      added. */
  method MorningScenario(items: seq<string>, env: nat -> Env) returns (first: seq<string>, second: seq<string>, off: TurnOff)
    ensures first == WishSpec(GoodmorningSpec(items, env(0)), env(1))
    ensures off == TurnedOff
    ensures second == WishSpec(items, env(1))
  {
    var ids := new Registry.InstanceCounter();
    var m := NewManager(ids, "plugins");
    var manager := m.value;
    ShippedPairLoads();
    var raised := manager.LoadPlugins(["goodmorning_plugin.py", "haveaniceday_plugin.py"], ShippedImporter);
    assert !raised && |manager.loaded| == 2;
    var gm, hd := manager.loaded[0], manager.loaded[1];
    assert gm.kind == Goodmorning && gm.enabled && hd.kind == Haveaniceday && hd.enabled;
    var data := new TextList(items);
    var failed, log := manager.PluginsApply(data, env);
    assert States(manager.loaded) == [(Goodmorning, true), (Haveaniceday, true)];
    ShippedPluginsCompose(items, env);
    first := data.items;
    assert gm.name == "goodmorning";
    assert FirstNamed(manager.loaded, "goodmorning") == Some(0);
    off := manager.TurnOffPlugin("goodmorning");
    assert !gm.enabled && hd.enabled;
    var again := new TextList(items);
    failed, log := manager.PluginsApply(again, env);
    assert States(manager.loaded) == [(Goodmorning, false), (Haveaniceday, true)];
    WishOnlyAfterTurnOff(items, env);
    second := again.items;
  }
}
