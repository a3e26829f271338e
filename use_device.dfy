/** `useDevice`: the controller lists of a device, and whether it can send program changes. */
module UseDevice {
  import opened Types
  import opened Outboard

  /** Some LCD controller sends program changes. */
  predicate HasPatch(lcds: seq<Controller>)
  {
    exists i :: 0 <= i < |lcds| && lcds[i].message == ProgramChange
  }

  /** What `useDevice` returns: the flag and the device's three controller lists. */
  datatype DeviceView = DeviceView(hasPatch: bool, lcds: seq<Controller>, rotaries: seq<Controller>, toggles: seq<Controller>)

  /**
   * `useDevice(device)`: the LCD controllers are scanned until one sends a program change;
   * toggles and rotaries are never inspected. The lists are the device's own, and nothing is
   * modified.
   */
  method Use(device: Outboard) returns (view: DeviceView)
    ensures view.hasPatch <==> HasPatch(device.State().Controllers().lcds)
    ensures view.lcds == device.State().Controllers().lcds
    ensures view.rotaries == device.State().Controllers().rotaries
    ensures view.toggles == device.State().Controllers().toggles
  {
    var controllers := device.originalConfigs.controllers;
    var hasPatch := false;
    var i := 0;
    while i < |controllers.lcds|
      invariant 0 <= i <= |controllers.lcds|
      invariant !hasPatch
      invariant forall j :: 0 <= j < i ==> controllers.lcds[j].message != ProgramChange
    {
      if controllers.lcds[i].message == ProgramChange {
        hasPatch := true;
        break;
      }
      i := i + 1;
    }
    view := DeviceView(hasPatch, controllers.lcds, controllers.rotaries, controllers.toggles);
  }

  /**
   * A constructed device has a patch exactly when its configuration names an LCD that sends
   * program changes: normalising the bounds keeps every controller's message.
   */
  lemma BuiltHasPatch(config: DeviceConfig, now: nat)
    ensures HasPatch(Build(config, now).Controllers().lcds) <==> HasPatch(config.controllers.lcds)
  {
    var lcds := Build(config, now).Controllers().lcds;
    assert lcds == NormalizedList(config.controllers.lcds);
    if HasPatch(config.controllers.lcds) {
      var i :| 0 <= i < |config.controllers.lcds| && config.controllers.lcds[i].message == ProgramChange;
      assert lcds[i].message == ProgramChange;
    }
    if HasPatch(lcds) {
      var i :| 0 <= i < |lcds| && lcds[i].message == ProgramChange;
      assert config.controllers.lcds[i].message == ProgramChange;
    }
  }
}
