/** extension/plgloader.py: plugin discovery. The directory listing and
    the execution of a module file are inputs: `exec` maps a module spec to
    the attributes of the executed module, in `dir()` order, or to `None`
    when executing the file raises. */
module Discovery {
  import opened Wrappers
  import opened Strings
  import opened PluginBase

  /** What discovery needs to know about a class object. */
  datatype ClassInfo = ClassInfo(
    name: string,
    /** `issubclass(c, AbstractPlugin)` */
    pluginSubclass: bool,
    /** `c is AbstractPlugin` */
    isAbstractBase: bool,
    /** the methods the class itself overrides */
    defines: set<string>,
    /** whether `c.__init__` raises (for instance by passing arguments to
        an `__init__` that takes none) */
    initRaises: bool)

  datatype AttrValue = Other | Class(info: ClassInfo)

  /** One name bound in an executed module. */
  datatype Attr = Attr(name: string, value: AttrValue)

  /** A plugin object made by calling a class with no arguments. */
  datatype Instance = Instance(cls: ClassInfo)

  /** `Path(dir, filename)` and the module name. */
  datatype FilePath = FilePath(dir: string, file: string)
  datatype ModuleSpec = ModuleSpec(path: FilePath, name: string)

  predicate IsPluginFile(f: string)
  {
    EndsWith(f, "plugin.py")
  }

  /** The listing filter of `load`: `file.endswith('plugin.py')`, in
      listing order. */
  function PluginFiles(listing: seq<string>): (fs: seq<string>)
    ensures forall f :: f in fs <==> f in listing && IsPluginFile(f)
    ensures |fs| <= |listing|
    decreases |listing|
  {
    if listing == [] then []
    else
      var rest := PluginFiles(listing[..|listing| - 1]);
      var f := listing[|listing| - 1];
      assert listing == listing[..|listing| - 1] + [f];
      if IsPluginFile(f) then rest + [f] else rest
  }

  /** `filename[:-3]`: Python slicing gives "" for names shorter than 3. */
  function ModuleName(filename: string): (name: string)
    ensures |filename| >= 3 ==> |name| == |filename| - 3 && filename[..|name|] == name
    ensures |filename| < 3 ==> name == ""
  {
    if |filename| >= 3 then filename[..|filename| - 3] else ""
  }

  /** `_module_path_name`. */
  function ModulePathName(dir: string, filename: string): (m: ModuleSpec)
    ensures m.path == FilePath(dir, filename) && m.name == ModuleName(filename)
  {
    ModuleSpec(FilePath(dir, filename), ModuleName(filename))
  }

  /** For a file ending in ".py" the module name is exactly the name
      without the extension. */
  lemma ModuleNameDropsExtension(filename: string)
    requires EndsWith(filename, ".py")
    ensures ModuleName(filename) + ".py" == filename
  {
    var name := ModuleName(filename);
    assert filename == filename[..|filename| - 3] + filename[|filename| - 3..];
  }

  /** `module_dir`: the names not starting with "__", in `dir()` order. */
  function ModuleDir(attrs: seq<Attr>): (r: seq<Attr>)
    ensures forall a :: a in r <==> a in attrs && !StartsWith(a.name, "__")
    decreases |attrs|
  {
    if attrs == [] then []
    else
      var rest := ModuleDir(attrs[..|attrs| - 1]);
      var a := attrs[|attrs| - 1];
      assert attrs == attrs[..|attrs| - 1] + [a];
      if StartsWith(a.name, "__") then rest else rest + [a]
  }

  /** A module whose names do not start with "_" is kept whole. */
  lemma {:induction false} ModuleDirKeepsPlainNames(attrs: seq<Attr>)
    requires forall i :: 0 <= i < |attrs| ==> attrs[i].name != [] && attrs[i].name[0] != '_'
    ensures ModuleDir(attrs) == attrs
    decreases |attrs|
  {
    if attrs != [] {
      var init := attrs[..|attrs| - 1];
      assert forall i :: 0 <= i < |init| ==> init[i] == attrs[i];
      ModuleDirKeepsPlainNames(init);
      assert !StartsWith(attrs[|attrs| - 1].name, "__");
      assert attrs == init + [attrs[|attrs| - 1]];
    }
  }

  /** The test of `_fetch_plugins_from_module`. */
  predicate IsPluginClass(v: AttrValue)
  {
    v.Class? && v.info.pluginSubclass && !v.info.isAbstractBase
  }

  /** Calling the class with no arguments succeeds: every abstract method
      is overridden and `__init__` does not raise. */
  predicate Instantiable(c: ClassInfo)
  {
    AbstractMethods <= c.defines && !c.initRaises
  }

  /** The instances one module yields, or `None` when one instantiation
      raises and the whole call fails. `attrs` is already filtered. */
  function FetchSpec(attrs: seq<Attr>): Option<seq<Instance>>
    decreases |attrs|
  {
    if attrs == [] then Some([])
    else
      match FetchSpec(attrs[..|attrs| - 1])
      case None => None
      case Some(init) =>
        var a := attrs[|attrs| - 1];
        if !IsPluginClass(a.value) then Some(init)
        else if Instantiable(a.value.info) then Some(init + [Instance(a.value.info)])
        else None
  }

  /** The number of plugin-class attributes. */
  function CountPluginClasses(attrs: seq<Attr>): nat
    decreases |attrs|
  {
    if attrs == [] then 0
    else CountPluginClasses(attrs[..|attrs| - 1]) + (if IsPluginClass(attrs[|attrs| - 1].value) then 1 else 0)
  }

  /** A module yields instances exactly when every plugin class in it is
      instantiable; then it yields one instance per binding, in order, so
      a class bound to two names is instantiated twice. */
  lemma {:induction false} FetchSpecCharacterised(attrs: seq<Attr>)
    ensures FetchSpec(attrs).Some? <==> forall i :: 0 <= i < |attrs| && IsPluginClass(attrs[i].value) ==> Instantiable(attrs[i].value.info)
    ensures FetchSpec(attrs).Some? ==> |FetchSpec(attrs).value| == CountPluginClasses(attrs)
    ensures FetchSpec(attrs).Some? ==> forall c :: Instance(c) in FetchSpec(attrs).value <==> exists i :: 0 <= i < |attrs| && attrs[i].value == Class(c) && IsPluginClass(attrs[i].value)
    decreases |attrs|
  {
    if attrs != [] {
      var init := attrs[..|attrs| - 1];
      FetchSpecCharacterised(init);
      assert forall i :: 0 <= i < |init| ==> init[i] == attrs[i];
      var a := attrs[|attrs| - 1];
      if FetchSpec(attrs).Some? {
        var r := FetchSpec(attrs).value;
        forall c | Instance(c) in r
          ensures exists i :: 0 <= i < |attrs| && attrs[i].value == Class(c) && IsPluginClass(attrs[i].value)
        {
          if Instance(c) in FetchSpec(init).value {
            var i :| 0 <= i < |init| && init[i].value == Class(c) && IsPluginClass(init[i].value);
            assert attrs[i] == init[i];
          } else {
            assert attrs[|attrs| - 1].value == Class(c);
          }
        }
        forall c | exists i :: 0 <= i < |attrs| && attrs[i].value == Class(c) && IsPluginClass(attrs[i].value)
          ensures Instance(c) in r
        {
          var i :| 0 <= i < |attrs| && attrs[i].value == Class(c) && IsPluginClass(attrs[i].value);
          if i < |init| {
            assert init[i] == attrs[i];
          }
        }
      }
    }
  }

  /** `_fetch_plugins_from_module` after `module_dir` has been built. */
  method FetchPluginsFromModule(attrs: seq<Attr>) returns (r: Option<seq<Instance>>)
    ensures r == FetchSpec(ModuleDir(attrs))
  {
    var moduleDir := ModuleDir(attrs);
    var instances: seq<Instance> := [];
    var i := 0;
    while i < |moduleDir|
      invariant 0 <= i <= |moduleDir|
      invariant FetchSpec(moduleDir[..i]) == Some(instances)
    {
      var attr := moduleDir[i];
      assert moduleDir[..i + 1][..i] == moduleDir[..i];
      if IsPluginClass(attr.value) {
        if !Instantiable(attr.value.info) {
          assert FetchSpec(moduleDir[..i + 1]).None?;
          FetchNoneSticks(moduleDir, i + 1);
          assert moduleDir[..|moduleDir|] == moduleDir;
          return None;
        }
        instances := instances + [Instance(attr.value.info)];
      }
      i := i + 1;
    }
    assert moduleDir[..i] == moduleDir;
    r := Some(instances);
  }

  /** Once one instantiation has raised, so does the whole module. */
  lemma {:induction false} FetchNoneSticks(attrs: seq<Attr>, k: nat)
    requires k <= |attrs| && FetchSpec(attrs[..k]).None?
    ensures FetchSpec(attrs).None?
    decreases |attrs| - k
  {
    if k < |attrs| {
      assert attrs[..k + 1][..k] == attrs[..k];
      FetchNoneSticks(attrs, k + 1);
    } else {
      assert attrs[..k] == attrs;
    }
  }

  /** `_load_plugin_file`: execution failure and instantiation failure
      both make the file fail. */
  function LoadFileSpec(dir: string, file: string, exec: ModuleSpec -> Option<seq<Attr>>): Option<seq<Instance>>
  {
    match exec(ModulePathName(dir, file))
    case None => None
    case Some(attrs) => FetchSpec(ModuleDir(attrs))
  }

  /** The plugins of the files `fs`, concatenated in order, failing files
      contributing nothing. */
  function LoadSpec(dir: string, fs: seq<string>, exec: ModuleSpec -> Option<seq<Attr>>): seq<Instance>
    decreases |fs|
  {
    if fs == [] then []
    else
      var last := LoadFileSpec(dir, fs[|fs| - 1], exec);
      LoadSpec(dir, fs[..|fs| - 1], exec) + (if last.Some? then last.value else [])
  }

  /** The files `load` logs and skips. */
  function SkippedSpec(dir: string, fs: seq<string>, exec: ModuleSpec -> Option<seq<Attr>>): (r: seq<string>)
    ensures forall f :: f in r <==> f in fs && LoadFileSpec(dir, f, exec).None?
    decreases |fs|
  {
    if fs == [] then []
    else
      var f := fs[|fs| - 1];
      SkippedSpec(dir, fs[..|fs| - 1], exec) + (if LoadFileSpec(dir, f, exec).None? then [f] else [])
  }

  /** Loading more files only appends: a failing file never removes what
      earlier files gave, and later files are loaded after it. */
  lemma {:induction false} LoadSpecAppend(dir: string, a: seq<string>, b: seq<string>, exec: ModuleSpec -> Option<seq<Attr>>)
    ensures LoadSpec(dir, a + b, exec) == LoadSpec(dir, a, exec) + LoadSpec(dir, b, exec)
    decreases |b|
  {
    if b == [] {
      assert a + b == a;
    } else {
      var b' := b[..|b| - 1];
      var f := b[|b| - 1];
      var tail := if LoadFileSpec(dir, f, exec).Some? then LoadFileSpec(dir, f, exec).value else [];
      assert (a + b)[..|a + b| - 1] == a + b';
      assert (a + b)[|a + b| - 1] == f;
      assert LoadSpec(dir, a + b, exec) == LoadSpec(dir, a + b', exec) + tail;
      assert LoadSpec(dir, b, exec) == LoadSpec(dir, b', exec) + tail;
      LoadSpecAppend(dir, a, b', exec);
    }
  }

  /** Some file of `fs` loaded successfully and yielded `x`. */
  predicate YieldedBy(dir: string, fs: seq<string>, exec: ModuleSpec -> Option<seq<Attr>>, x: Instance)
  {
    exists f :: f in fs && LoadFileSpec(dir, f, exec).Some? && x in LoadFileSpec(dir, f, exec).value
  }

  /** A plugin is loaded from a file only when the whole file succeeded;
      a file that fails contributes nothing and the others are kept. */
  lemma {:induction false} LoadSpecMembers(dir: string, fs: seq<string>, exec: ModuleSpec -> Option<seq<Attr>>, x: Instance)
    ensures x in LoadSpec(dir, fs, exec) <==> YieldedBy(dir, fs, exec, x)
    decreases |fs|
  {
    if fs != [] {
      var init := fs[..|fs| - 1];
      var f := fs[|fs| - 1];
      LoadSpecMembers(dir, init, exec, x);
      assert fs == init + [f];
      var last := LoadFileSpec(dir, f, exec);
      var tail := if last.Some? then last.value else [];
      assert LoadSpec(dir, fs, exec) == LoadSpec(dir, init, exec) + tail;
      if x in LoadSpec(dir, init, exec) {
        var g :| g in init && LoadFileSpec(dir, g, exec).Some? && x in LoadFileSpec(dir, g, exec).value;
        assert g in fs;
      } else if x in tail {
        assert f in fs;
      }
      if YieldedBy(dir, fs, exec, x) {
        var g :| g in fs && LoadFileSpec(dir, g, exec).Some? && x in LoadFileSpec(dir, g, exec).value;
        if g != f {
          assert g in init;
          assert YieldedBy(dir, init, exec, x);
        }
      }
    }
  }

  class PluginLoader {
    const pluginsDir: string

    constructor (pluginsDir: string)
      ensures this.pluginsDir == pluginsDir
    {
      this.pluginsDir := pluginsDir;
    }

    /** `load`: the plugins of every file ending in "plugin.py", in listing
        order; a file whose loading raises is logged (`skipped`) and the
        remaining files are still loaded. */
    method Load(listing: seq<string>, exec: ModuleSpec -> Option<seq<Attr>>) returns (plugins: seq<Instance>, skipped: seq<string>)
      ensures plugins == LoadSpec(pluginsDir, PluginFiles(listing), exec)
      ensures skipped == SkippedSpec(pluginsDir, PluginFiles(listing), exec)
    {
      var pluginFiles := PluginFiles(listing);
      plugins, skipped := [], [];
      var i := 0;
      while i < |pluginFiles|
        invariant 0 <= i <= |pluginFiles|
        invariant plugins == LoadSpec(pluginsDir, pluginFiles[..i], exec)
        invariant skipped == SkippedSpec(pluginsDir, pluginFiles[..i], exec)
      {
        var pf := pluginFiles[i];
        var loaded := LoadPluginFile(pf, exec);
        assert pluginFiles[..i + 1][..i] == pluginFiles[..i];
        if loaded.Some? {
          plugins := plugins + loaded.value;
        } else {
          skipped := skipped + [pf];
        }
        i := i + 1;
      }
      assert pluginFiles[..i] == pluginFiles;
    }

    /** `_load_plugin_file`. */
    method LoadPluginFile(filename: string, exec: ModuleSpec -> Option<seq<Attr>>) returns (r: Option<seq<Instance>>)
      ensures r == LoadFileSpec(pluginsDir, filename, exec)
    {
      var spec := ModulePathName(pluginsDir, filename);
      var executed := exec(spec);
      if executed.None? {
        return None;
      }
      r := FetchPluginsFromModule(executed.value);
    }
  }

  /** The base class as bound in every plugin module. */
  const AbstractPluginClass: ClassInfo :=
    ClassInfo("AbstractPlugin", true, true, {}, true)

  /** `RandomCurrentTask` as shipped: it does not override `plg_events`,
      and its `__init__` passes a name to an `__init__` that takes none. */
  const RandomCurrentTaskClass: ClassInfo :=
    ClassInfo("RandomCurrentTask", true, false,
              {"random_current_task", "complete_last_task", "doagain_last_task",
               "user_commands", "help", "daily_events", "monthly_events", "disordered_events"},
              true)

  /** The names randomtask_plugin.py binds, in `dir()` order (dunder names
      omitted; `Any`, `Callable`, `choice`, `protect_for_html` and the
      `extension.exttypes` aliases stand as plain values, `datetime` and `Notion` as classes that are
      not plugins). */
  const RandomTaskModule: seq<Attr> := [
    Attr("AbstractPlugin", Class(AbstractPluginClass)),
    Attr("ActionResult", Class(ClassInfo("ActionResult", false, false, {}, false))),
    Attr("ActionT", Other),
    Attr("Any", Other),
    Attr("Callable", Other),
    Attr("CommandBindingsT", Other),
    Attr("EventsScheduleT", Other),
    Attr("Notion", Class(ClassInfo("Notion", false, false, {}, false))),
    Attr("RandomCurrentTask", Class(RandomCurrentTaskClass)),
    Attr("choice", Other),
    Attr("datetime", Class(ClassInfo("datetime", false, false, {}, false))),
    Attr("plg", Class(RandomCurrentTaskClass)),
    Attr("protect_for_html", Other)
  ]

  /** As shipped the plugin class cannot be instantiated, so
      randomtask_plugin.py yields no plugin at all. */
  lemma ShippedRandomTaskYieldsNothing()
    ensures !Instantiable(RandomCurrentTaskClass)
    ensures FetchSpec(ModuleDir(RandomTaskModule)).None?
  {
    assert "plg_events" !in RandomCurrentTaskClass.defines;
    RandomTaskModuleIsPlain();
    FetchFailsOnBadPlugin(RandomTaskModule, 8);
  }

  /** No name randomtask_plugin.py binds starts with an underscore. */
  lemma RandomTaskModuleIsPlain()
    ensures ModuleDir(RandomTaskModule) == RandomTaskModule
  {
    var ns := seq(|RandomTaskModule|, i requires 0 <= i < |RandomTaskModule| => RandomTaskModule[i].name);
    assert forall i :: 0 <= i < |ns| ==> ns[i] != [] && ns[i][0] != '_';
    ModuleDirKeepsPlainNames(RandomTaskModule);
  }

  /** A plugin class that cannot be instantiated fails its module. */
  lemma FetchFailsOnBadPlugin(attrs: seq<Attr>, i: nat)
    requires i < |attrs| && IsPluginClass(attrs[i].value) && !Instantiable(attrs[i].value.info)
    ensures FetchSpec(attrs).None?
  {
    FetchSpecCharacterised(attrs);
  }

  /** How many plugin-class bindings name the class `c`. */
  function Bindings(attrs: seq<Attr>, c: ClassInfo): nat
    decreases |attrs|
  {
    if attrs == [] then 0
    else Bindings(attrs[..|attrs| - 1], c) + (if attrs[|attrs| - 1].value == Class(c) && IsPluginClass(Class(c)) then 1 else 0)
  }

  /** A class is instantiated once per name bound to it, so a class that a
      module also exports as `plg` is instantiated twice. */
  lemma {:induction false} FetchSpecMultiplicity(attrs: seq<Attr>, c: ClassInfo)
    requires FetchSpec(attrs).Some?
    ensures multiset(FetchSpec(attrs).value)[Instance(c)] == Bindings(attrs, c)
    decreases |attrs|
  {
    if attrs != [] {
      FetchSpecMultiplicity(attrs[..|attrs| - 1], c);
    }
  }
}
