/** extension/abstractplugin.py: the base every plugin extends. Its
    constructor assigns a local variable instead of `self._enabled`, so the
    flag is unset until `enable` or `disable` has run; and it takes no name,
    although every shipped plugin passes one. */
module PluginBase {
  import opened Wrappers

  /** The methods a concrete plugin class must override before it can be
      instantiated. */
  const AbstractMethods: set<string> := {"user_commands", "plg_events"}

  class Plugin {
    /** The `name` attribute the manager reads; AbstractPlugin defines
        none, so a plugin has one only if its own class provides it. */
    const name: Option<string>
    /** `self._enabled`; `None` while the slot is unassigned, when reading
        `isenabled` raises AttributeError. */
    var enabled: Option<bool>

    constructor (name: Option<string>)
      ensures this.name == name && enabled.None?
    {
      this.name := name;
      enabled := None;
    }

    /** `enable`: the flag is True afterwards, whatever it was, so a second
        call changes nothing. */
    method Enable()
      modifies this
      ensures enabled == Some(true)
    {
      enabled := Some(true);
    }

    /** `disable`: the flag is False afterwards, whatever it was. */
    method Disable()
      modifies this
      ensures enabled == Some(false)
    {
      enabled := Some(false);
    }

    /** `isenabled`: the flag, or `None` where Python raises AttributeError. */
    function IsEnabled(): Option<bool>
      reads this
    {
      enabled
    }
  }

  /** A fresh plugin has no flag; `enable` and `disable` set it, each
      idempotently, and leave the name alone. */
  method PluginLifecycle(name: Option<string>) returns (initial: Option<bool>, afterEnable: Option<bool>, afterTwice: Option<bool>, afterDisable: Option<bool>, finalName: Option<string>)
    ensures initial.None?
    ensures afterEnable == Some(true) && afterTwice == afterEnable
    ensures afterDisable == Some(false)
    ensures finalName == name
  {
    var p := new Plugin(name);
    initial := p.IsEnabled();
    p.Enable();
    afterEnable := p.IsEnabled();
    p.Enable();
    afterTwice := p.IsEnabled();
    p.Disable();
    p.Disable();
    afterDisable := p.IsEnabled();
    finalName := p.name;
  }
}
