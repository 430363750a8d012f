/** The client-side view of a VirtualBox VM node: its settings as last known
    from the compute server, the Ethernet ports derived from the adapter
    count, and the requests it issues to the server on creation and update.
    Requests are returned as values; sending them is left to the caller. */
module VirtualBoxVm {
  import opened PyValues
  import opened Settings
  import opened Ports

  /** The VirtualBox defaults taken from the node settings table. */
  datatype Defaults = Defaults(
    adapters: Value,
    useAnyAdapter: Value,
    adapterType: Value,
    ram: Value,
    headless: Value,
    acpiShutdown: Value,
    enableRemoteConsole: Value)

  /** A VirtualBox VM node: its settings, its ports, whether it is a linked
      clone, and how its ports are named. */
  datatype Vm = Vm(settings: SettingsMap, ports: seq<Port>, linkedClone: bool, scheme: NamingScheme)

  /** Result of a callback: it completed, or it raised `error` after leaving
      the node in state `vm`. */
  datatype Outcome = Done(vm: Vm) | Raised(vm: Vm, error: Error)

  /** The creation request handed to the node base class. */
  datatype CreateRequest = CreateRequest(
    name: string,
    nodeId: Option<string>,
    params: SettingsMap,
    defaultNameFormat: Option<string>)

  datatype Created = Created(vm: Vm, request: CreateRequest)

  /** `newSettings` is the caller's dictionary as `update` leaves it (it may
      add a `vmname` entry); `request` holds the parameters of the update
      request, or None when no request is issued. */
  datatype Updated = Updated(newSettings: SettingsMap, request: Option<SettingsMap>)

  const DefaultPortNameFormat: string := "Ethernet{0}"

  /** The setting keys a VirtualBox VM node adds to the base node settings. */
  const VmSettingKeys: set<string> :=
    {"vmname", "console", "console_host", "adapters", "use_any_adapter", "adapter_type",
     "ram", "headless", "acpi_shutdown", "enable_remote_console"}

  /** A freshly constructed node: the base node's settings extended with the
      VirtualBox keys, no ports, not a linked clone, ports named
      "Ethernet{0}" without segmentation or fixed first name. */
  function NewVm(baseSettings: SettingsMap, defaults: Defaults): (vm: Vm)
    ensures vm.settings.Keys == baseSettings.Keys + VmSettingKeys
    ensures forall k :: k in baseSettings && k !in VmSettingKeys ==> vm.settings[k] == baseSettings[k]
    ensures vm.settings["vmname"] == VStr("")
    ensures vm.settings["console"] == VNone && vm.settings["console_host"] == VNone
    ensures vm.settings["adapters"] == defaults.adapters
    ensures vm.settings["use_any_adapter"] == defaults.useAnyAdapter
    ensures vm.settings["adapter_type"] == defaults.adapterType
    ensures vm.settings["ram"] == defaults.ram
    ensures vm.settings["headless"] == defaults.headless
    ensures vm.settings["acpi_shutdown"] == defaults.acpiShutdown
    ensures vm.settings["enable_remote_console"] == defaults.enableRemoteConsole
    ensures vm.ports == [] && !vm.linkedClone
    ensures vm.scheme == NamingScheme(DefaultPortNameFormat, 0, "")
  {
    var own := map[
      "vmname" := VStr(""),
      "console" := VNone,
      "console_host" := VNone,
      "adapters" := defaults.adapters,
      "use_any_adapter" := defaults.useAnyAdapter,
      "adapter_type" := defaults.adapterType,
      "ram" := defaults.ram,
      "headless" := defaults.headless,
      "acpi_shutdown" := defaults.acpiShutdown,
      "enable_remote_console" := defaults.enableRemoteConsole];
    assert own.Keys == VmSettingKeys;
    Vm(baseSettings + own, [], false, NamingScheme(DefaultPortNameFormat, 0, ""))
  }

  /** `create`: records the linked-clone flag and the port naming scheme, and
      builds the creation request. The node name defaults to the VirtualBox
      VM name when none is given (""), and the request parameters are the VM
      name and linked-clone flag overridden by `additional`. */
  function Create(
    vm: Vm, vmname: string, name: string, nodeId: Option<string>,
    portNameFormat: string, portSegmentSize: int, firstPortName: string,
    linkedClone: bool, additional: SettingsMap, defaultNameFormat: Option<string>): (r: Created)
    ensures name != "" ==> r.request.name == name
    ensures name == "" ==> r.request.name == vmname
    ensures r.request.params.Keys == {"vmname", "linked_clone"} + additional.Keys
    ensures forall k :: k in additional ==> r.request.params[k] == additional[k]
    ensures "vmname" !in additional ==> r.request.params["vmname"] == VStr(vmname)
    ensures "linked_clone" !in additional ==> r.request.params["linked_clone"] == VBool(linkedClone)
    ensures r.request.nodeId == nodeId && r.request.defaultNameFormat == defaultNameFormat
    ensures r.vm.settings == vm.settings && r.vm.ports == vm.ports
    ensures r.vm.linkedClone == linkedClone
    ensures r.vm.scheme == NamingScheme(portNameFormat, portSegmentSize, firstPortName)
  {
    var nodeName := if name == "" then vmname else name;
    var params := map["vmname" := VStr(vmname), "linked_clone" := VBool(linkedClone)] + additional;
    Created(
      vm.(linkedClone := linkedClone, scheme := NamingScheme(portNameFormat, portSegmentSize, firstPortName)),
      CreateRequest(nodeName, nodeId, params, defaultNameFormat))
  }

  /** The adapter count `_createCallback` reads: the `adapters` setting, or 0
      when there is none. */
  function CreationAdapters(settings: SettingsMap): (v: Value)
  {
    if "adapters" in settings then settings["adapters"] else VInt(0)
  }

  /** `_createCallback`: appends one port per adapter to the node's ports.
      An adapter count that is not an integer makes the port generation
      raise a TypeError before any port is added. */
  function CreateCallback(vm: Vm): (r: Outcome)
    ensures r.vm.settings == vm.settings && r.vm.linkedClone == vm.linkedClone && r.vm.scheme == vm.scheme
    ensures r.Done? <==> AsRangeBound(CreationAdapters(vm.settings)).Some?
    ensures r.Raised? ==> r.vm == vm && r.error == TypeError
    ensures r.Done? ==>
      var n := AsRangeBound(CreationAdapters(vm.settings)).value;
      && |r.vm.ports| == |vm.ports| + RangeLength(n)
      && r.vm.ports[..|vm.ports|] == vm.ports
      && r.vm.ports[|vm.ports|..] == NewPorts(vm.scheme, n)
  {
    match AsRangeBound(CreationAdapters(vm.settings))
    case Some(n) =>
      var ports := vm.ports + NewPorts(vm.scheme, n);
      assert ports[..|vm.ports|] == vm.ports;
      assert ports[|vm.ports|..] == NewPorts(vm.scheme, n);
      Done(vm.(ports := ports))
    case None => Raised(vm, TypeError)
  }

  /** True when `update` must force the VirtualBox VM name to follow a
      rename: the node is a linked clone and `newSettings` carries a `name`
      different from the current node name. */
  predicate ForcesVmRename(vm: Vm, nodeName: string, newSettings: SettingsMap)
  {
    vm.linkedClone && "name" in newSettings && !PyEq(newSettings["name"], VStr(nodeName))
  }

  /** `update`: applies the linked-clone rename rule to `newSettings`, then
      issues an update request with exactly the entries whose key is a known
      setting and whose value differs from the current one; no request is
      issued when there is no such entry. */
  function Update(vm: Vm, nodeName: string, newSettings: SettingsMap): (r: Updated)
    ensures ForcesVmRename(vm, nodeName, newSettings) ==>
      r.newSettings == newSettings["vmname" := newSettings["name"]]
    ensures !ForcesVmRename(vm, nodeName, newSettings) ==> r.newSettings == newSettings
    ensures r.request.Some? <==>
      exists k :: k in r.newSettings && k in vm.settings && !PyEq(vm.settings[k], r.newSettings[k])
    ensures r.request.Some? ==>
      forall k :: k in r.request.value <==>
        k in r.newSettings && k in vm.settings && !PyEq(vm.settings[k], r.newSettings[k])
    ensures r.request.Some? ==> forall k :: k in r.request.value ==> r.request.value[k] == r.newSettings[k]
  {
    var sent :=
      if ForcesVmRename(vm, nodeName, newSettings)
      then newSettings["vmname" := newSettings["name"]]
      else newSettings;
    var params := Changes(vm.settings, sent);
    if params == map[] then
      Updated(sent, None)
    else
      assert params.Keys != {};
      Updated(sent, Some(params))
  }

  /** True when a server response changes the `adapters` setting. */
  predicate AdaptersChanged(settings: SettingsMap, result: SettingsMap)
  {
    "adapters" in Changes(settings, result)
  }

  /** `_updateCallback`: merges the server response into the settings and,
      when it changed the adapter count, replaces the port list with one
      freshly generated for the new count. A new count that is not an
      integer raises a TypeError after the settings were merged and the
      ports cleared. */
  function UpdateCallback(vm: Vm, result: SettingsMap): (r: Outcome)
    ensures r.vm.settings == Merge(vm.settings, result)
    ensures r.vm.linkedClone == vm.linkedClone && r.vm.scheme == vm.scheme
    ensures !AdaptersChanged(vm.settings, result) ==> r.Done? && r.vm.ports == vm.ports
    ensures AdaptersChanged(vm.settings, result) ==>
      (r.Done? <==> AsRangeBound(result["adapters"]).Some?)
    ensures AdaptersChanged(vm.settings, result) && r.Done? ==>
      var n := AsRangeBound(result["adapters"]).value;
      |r.vm.ports| == RangeLength(n) && r.vm.ports == NewPorts(vm.scheme, n)
    ensures r.Raised? ==> r.vm.ports == [] && r.error == TypeError
  {
    var settings := Merge(vm.settings, result);
    if AdaptersChanged(vm.settings, result) then
      match AsRangeBound(settings["adapters"])
      case Some(n) => Done(vm.(settings := settings, ports := NewPorts(vm.scheme, n)))
      case None => Raised(vm.(settings := settings, ports := []), TypeError)
    else
      Done(vm.(settings := settings))
  }

  /** `serialConsole`: the serial console is used exactly when the remote
      console is not enabled; a node without that setting raises a KeyError. */
  function SerialConsole(vm: Vm): (r: Result<bool>)
    ensures r.Success? <==> "enable_remote_console" in vm.settings
    ensures r.Failure? ==> r.error == KeyError("enable_remote_console")
    ensures r.Success? ==> (r.value <==> !Truthy(vm.settings["enable_remote_console"]))
  {
    if "enable_remote_console" !in vm.settings then Failure(KeyError("enable_remote_console"))
    else if Truthy(vm.settings["enable_remote_console"]) then Success(false)
    else Success(true)
  }

  /** The port list matches the adapter count: the `adapters` setting is an
      integer and the ports are exactly those generated for it. */
  predicate PortsMatchAdapters(vm: Vm)
  {
    && "adapters" in vm.settings
    && AsRangeBound(vm.settings["adapters"]).Some?
    && vm.ports == NewPorts(vm.scheme, AsRangeBound(vm.settings["adapters"]).value)
  }

  /** A completed update callback keeps the ports in step with the adapter
      count, whether or not the count changed. */
  lemma UpdateCallbackKeepsPortsMatched(vm: Vm, result: SettingsMap)
    requires PortsMatchAdapters(vm)
    requires UpdateCallback(vm, result).Done?
    ensures PortsMatchAdapters(UpdateCallback(vm, result).vm)
    ensures |UpdateCallback(vm, result).vm.ports| ==
            RangeLength(AsRangeBound(UpdateCallback(vm, result).vm.settings["adapters"]).value)
  {
  }

  /** Whatever settings the node holds when the creation callback runs, a
      node without ports whose `adapters` setting is an integer ends the
      callback with exactly the ports generated for that count. */
  lemma CreateCallbackEstablishesMatch(vm: Vm)
    requires vm.ports == []
    requires "adapters" in vm.settings && AsRangeBound(vm.settings["adapters"]).Some?
    ensures CreateCallback(vm).Done?
    ensures PortsMatchAdapters(CreateCallback(vm).vm)
    ensures |CreateCallback(vm).vm.ports| == RangeLength(AsRangeBound(vm.settings["adapters"]).value)
  {
  }

  /** Creating a node and completing its creation callback leaves exactly one
      port per adapter, named by the naming scheme given to `create`. */
  lemma CreateCycleMatchesPorts(
    baseSettings: SettingsMap, defaults: Defaults, vmname: string, name: string,
    nodeId: Option<string>, portNameFormat: string, portSegmentSize: int,
    firstPortName: string, linkedClone: bool, additional: SettingsMap,
    defaultNameFormat: Option<string>)
    requires AsRangeBound(defaults.adapters).Some?
    ensures
      var created := Create(NewVm(baseSettings, defaults), vmname, name, nodeId, portNameFormat,
                            portSegmentSize, firstPortName, linkedClone, additional, defaultNameFormat);
      var cb := CreateCallback(created.vm);
      && cb.Done?
      && PortsMatchAdapters(cb.vm)
      && |cb.vm.ports| == RangeLength(AsRangeBound(defaults.adapters).value)
      && cb.vm.linkedClone == linkedClone
  {
  }

  /** A linked clone renamed to a new name sends the new name as `vmname`
      whenever that differs from the current VirtualBox VM name. */
  lemma LinkedCloneRenameSendsVmname(vm: Vm, nodeName: string, newSettings: SettingsMap)
    requires vm.linkedClone
    requires "name" in newSettings && !PyEq(newSettings["name"], VStr(nodeName))
    requires "vmname" in vm.settings && !PyEq(vm.settings["vmname"], newSettings["name"])
    ensures Update(vm, nodeName, newSettings).request.Some?
    ensures "vmname" in Update(vm, nodeName, newSettings).request.value
    ensures Update(vm, nodeName, newSettings).request.value["vmname"] == newSettings["name"]
  {
  }

  /** When the server acknowledges an update by echoing its parameters, the
      node ends up with the settings the caller asked for. Issuing again the
      dictionary `update` left behind sends nothing, provided the node name
      then read (`nodeName2`) agrees with any `name` in that dictionary; the
      node name comes from the node base class and is not tied to the `name`
      setting. */
  lemma EchoedUpdateSettles(vm: Vm, nodeName: string, newSettings: SettingsMap, nodeName2: string)
    requires Update(vm, nodeName, newSettings).request.Some?
    requires "name" in newSettings ==> PyEq(newSettings["name"], VStr(nodeName2))
    ensures
      var u := Update(vm, nodeName, newSettings);
      var cb := UpdateCallback(vm, u.request.value);
      && cb.vm.settings == Merge(vm.settings, u.newSettings)
      && Update(cb.vm, nodeName2, u.newSettings).request.None?
  {
  }

  /** The linked-clone flag given to `create` decides the rename rule of
      later updates: a node created as a full clone never has its VirtualBox
      VM name forced, while a linked clone renamed to a new name has `vmname`
      set to that name in the dictionary it is given. */
  lemma CreateFixesRenameRule(
    vm: Vm, vmname: string, name: string, nodeId: Option<string>,
    portNameFormat: string, portSegmentSize: int, firstPortName: string,
    linkedClone: bool, additional: SettingsMap, defaultNameFormat: Option<string>,
    nodeName: string, newSettings: SettingsMap)
    ensures
      var created := Create(vm, vmname, name, nodeId, portNameFormat, portSegmentSize,
                            firstPortName, linkedClone, additional, defaultNameFormat);
      var u := Update(created.vm, nodeName, newSettings);
      && (!linkedClone ==> u.newSettings == newSettings)
      && (linkedClone && "name" in newSettings && !PyEq(newSettings["name"], VStr(nodeName)) ==>
            "vmname" in u.newSettings && u.newSettings["vmname"] == newSettings["name"])
  {
  }

  /** After the server reports whether the remote console is enabled, the
      serial console is used exactly when the reported value is falsy. */
  lemma SerialConsoleFollowsResponse(vm: Vm, result: SettingsMap)
    requires "enable_remote_console" in vm.settings && "enable_remote_console" in result
    ensures SerialConsole(UpdateCallback(vm, result).vm) == Success(!Truthy(result["enable_remote_console"]))
  {
  }
}
