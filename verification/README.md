# VirtualBox VM node (GNS3 GUI) — Dafny model

This project models the client-side proxy the GNS3 GUI keeps for a
VirtualBox-backed VM node. The proxy stores the node's settings as the
compute server last reported them. It derives one Ethernet port per
VirtualBox adapter and decides which settings to send when the user edits
the node. Three pieces of logic are modelled and proved:

- **Port synthesis** (`_addAdapters`). Ports are named from a template. An
  interface counter wraps every `segment size` ports, and each wrap advances
  a segment counter. An optional fixed name for the first port does not
  advance either counter. `Ports.AddAdapters` is the counter loop. It is
  proved equal to the closed form `Ports.NewPorts`: adapter `i` gets
  adapter number `i`, port number 0, and interface/segment
  `k mod |s|` / `k div |s|`, where `k` counts the template-named ports
  before it and `s` is the segment size. With the default segment size 0
  the interface is `k` and the segment is always 0.
- **Outgoing diff** (`update`). The request carries exactly the known keys
  whose value changes. No request is issued when nothing changes. A linked
  clone that is renamed also sends `vmname` when the new name differs from
  the current VirtualBox VM name.
- **Incoming merge** (`_updateCallback`). Only known keys are overwritten.
  When the adapter count changes, the port list is rebuilt from scratch.

Settings are `map<string, Value>`. `Value` covers the scalars the settings hold
here: `None`, booleans, integers and strings. Python's `1 == True` is kept: `PyEq`
compares booleans and integers numerically. `range()` accepts integers and
booleans and raises a TypeError for anything else (`AsRangeBound`). A
callback that raises is modelled as `Raised(vm, error)`, where `vm` is the
state the node is left in. Requests to the server are returned as values
(`CreateRequest`, `Updated.request`).

Modules: `PyValues` (values and the Python semantics used), `Ports` (port
naming and generation), `Settings` (diff and merge), `VirtualBoxVm` (the
node's operations).

The port that carries the fixed first name does not advance the counters,
so the next port gets interface 0 and segment 0
(`Ports.FirstNameSkipsCounters`).

## Model

| member | source | states |
|---|---|---|
| `PyValues.AsRangeBound` | gns3/modules/virtualbox/virtualbox_vm.py:76 | `range(0, adapters)` accepts exactly integer and boolean counts (a boolean counts as 0 or 1); any other value has no bound and raises a TypeError |
| `PyValues.PyMod` | gns3/modules/virtualbox/virtualbox_vm.py:89 | Python's `%`: the remainder `r` satisfies `a == b * q + r` for some integer `q` and takes the sign of the divisor; it is zero exactly when the divisor divides the number, whatever the divisor's sign |
| `PyValues.PyEqSameRangeBound` | gns3/modules/virtualbox/virtualbox_vm.py:161-171 | two adapter counts that are equal under Python's `==` (such as 1 and True) give `range` the same bound, so the port count does not depend on which one is stored |
| `PyValues.PyEqSameTruthiness` | gns3/modules/virtualbox/virtualbox_vm.py:161-217 | values equal under Python's `==` are equally truthy, so a merge that keeps an equal value does not change `serialConsole` |
| `Ports.AddAdapters` | gns3/modules/virtualbox/virtualbox_vm.py:75-95 | appends exactly `max(0, adapters)` ports and leaves the existing ports unchanged; the i-th new port has adapter number i, port number 0 and the name `PortNameAt(scheme, i)`, so the two-counter loop equals the closed-form list `NewPorts` |
| `Ports.FormattedBeforeCounts` | gns3/modules/virtualbox/virtualbox_vm.py:77-88 | the counter index `FormattedBefore(scheme, i)` (i, or i - 1 once the fixed first-name port is behind, since that port does not advance the counters) equals the number of template-named ports among the first i generated ports |
| `Ports.CounterStep` | gns3/modules/virtualbox/virtualbox_vm.py:88-91 | one counter step (increment, then wrap to 0 and advance the segment when the interface count reaches a multiple of the segment size) turns the counters of the k-th template port into those of the (k+1)-th |
| `Ports.IfaceInRange` | gns3/modules/virtualbox/virtualbox_vm.py:80-91 | with a non-zero segment size `s`, every template-named port's interface index lies in `[0, abs(s))` |
| `Ports.FirstNameSkipsCounters` | gns3/modules/virtualbox/virtualbox_vm.py:77-88 | with a non-empty first-port name, adapter 0 carries that name and adapter 1 is named with interface 0 and segment 0 |
| `Ports.FormattedNamesDistinct` | gns3/modules/virtualbox/virtualbox_vm.py:80-91 | two different template-named adapters never receive the same (interface, segment) pair |
| `Settings.Changes` | gns3/modules/virtualbox/virtualbox_vm.py:144-147 | a key is in the diff exactly when it is already a setting and its incoming value differs from the current one; its value is the incoming one |
| `Settings.Merge` | gns3/modules/virtualbox/virtualbox_vm.py:159-165 | the merged settings have the same keys; a known key whose value differs takes the response's value, every other setting keeps its value, unknown keys are ignored |
| `Settings.MergeAgreesWithResult` | gns3/modules/virtualbox/virtualbox_vm.py:159-165 | after a merge every known key holds a value equal, under Python's `==`, to the response's value for it |
| `Settings.MergeIdempotent` | gns3/modules/virtualbox/virtualbox_vm.py:159-165 | after a merge the same response contains no changes, and merging it again changes nothing |
| `Settings.MergeChangesOnly` | gns3/modules/virtualbox/virtualbox_vm.py:144-165 | merging only the diff has the same effect as merging the whole dictionary |
| `Settings.NoChangesIffMergeIsIdentity` | gns3/modules/virtualbox/virtualbox_vm.py:144-150 | the diff is empty exactly when merging the dictionary would leave the settings unchanged |
| `VirtualBoxVm.NewVm` | gns3/modules/virtualbox/virtualbox_vm.py:46-66 | a new node adds the ten VirtualBox keys to the base settings: `vmname` "", console and console host None, the other seven from the defaults table; it is not a linked clone and names ports "Ethernet{0}" without segments or first name |
| `VirtualBoxVm.Create` | gns3/modules/virtualbox/virtualbox_vm.py:98-120 | the node name defaults to the VM name when none is given; the request parameters are `vmname` and `linked_clone` overridden by the additional settings; the linked-clone flag and naming scheme are recorded; settings and ports are untouched |
| `VirtualBoxVm.CreateCallback` | gns3/modules/virtualbox/virtualbox_vm.py:122-130 | appends one generated port per adapter (0 when `adapters` is missing) after the existing ports; a non-integer count raises a TypeError and changes nothing |
| `VirtualBoxVm.Update` | gns3/modules/virtualbox/virtualbox_vm.py:132-150 | a linked clone with a changed `name` gets `vmname` set to the new name, otherwise the caller's settings are untouched; a request is issued exactly when some known key changes, and it carries exactly those keys with their new values |
| `VirtualBoxVm.UpdateCallback` | gns3/modules/virtualbox/virtualbox_vm.py:152-171 | settings become the merge of the response; ports are untouched unless `adapters` changed, in which case they are the freshly generated list for the new count; a non-integer count raises a TypeError after the merge, leaving no ports |
| `VirtualBoxVm.SerialConsole` | gns3/modules/virtualbox/virtualbox_vm.py:210-219 | the serial console is used exactly when `enable_remote_console` is falsy; a missing setting raises a KeyError |
| `VirtualBoxVm.UpdateCallbackKeepsPortsMatched` | gns3/modules/virtualbox/virtualbox_vm.py:159-171 | if the ports matched the adapter count before a completed update callback, they still match it afterwards, so the port count equals the `adapters` setting |
| `VirtualBoxVm.CreateCallbackEstablishesMatch` | gns3/modules/virtualbox/virtualbox_vm.py:122-130 | for whatever settings the node holds when `_createCallback` runs, a node without ports whose `adapters` setting is an integer ends with exactly the ports generated for that count |
| `VirtualBoxVm.CreateCycleMatchesPorts` | gns3/modules/virtualbox/virtualbox_vm.py:98-130 | when nothing changes the settings between `create` and `_createCallback`, constructing, creating and completing the callback yields one port per adapter of the local `adapters` setting (the default), named by the scheme given to `create` |
| `VirtualBoxVm.LinkedCloneRenameSendsVmname` | gns3/modules/virtualbox/virtualbox_vm.py:139-150 | renaming a linked clone sends `vmname` equal to the new name whenever it differs from the current VirtualBox VM name |
| `VirtualBoxVm.EchoedUpdateSettles` | gns3/modules/virtualbox/virtualbox_vm.py:132-171 | if the server echoes an update's parameters, the node's settings become those the caller asked for; issuing again the dictionary `update` left behind (with `vmname` possibly filled in) sends no request, whether or not the echoed callback completed, as long as the node name then read agrees with any `name` in it |
| `VirtualBoxVm.CreateFixesRenameRule` | gns3/modules/virtualbox/virtualbox_vm.py:113-142 | the linked-clone flag given to `create` decides later updates: a full clone's update dictionary is never rewritten, while a renamed linked clone gets `vmname` set to the new name |
| `VirtualBoxVm.SerialConsoleFollowsResponse` | gns3/modules/virtualbox/virtualbox_vm.py:159-219 | after a response that reports `enable_remote_console`, the serial console is used exactly when the reported value is falsy |

## Left out

- The node base class (`gns3/node.py`) is not part of this model. This covers settings storage, id assignment, `status`, `compute`, and request dispatch through `_create` and `_update`. The requests are returned as values. A new node is assumed to start with an empty port list.
- Python's `str.format` on the port name template is not modelled. A generated name is the pair (interface, segment) together with the template. The `port1`/`segment1` fields are just these indices plus one.
- Ports.AddAdapters: does not model a malformed template (such as `"{2}"`, `"{x}"` or `"{"`). `str.format` raises on it in the middle of the loop, and the ports appended before that, such as the first-name port, stay in the list. The model always appends every port.
- Update: the current node name (`self.name()`) comes from the node base class. It is a parameter of `Update` and is not tied to the `name` setting.
- `info()`: string formatting that depends on port descriptions and on the compute server's id.
- `serialPipe()`: platform detection, temporary directories and directory creation are filesystem I/O.
- `console()`: a plain lookup of the `console` setting with no logic of its own.
- `configPage`, `defaultSymbol`, `symbolName`, `categories`, `__str__`: GUI hooks and constants.
- Logging calls.
- The contents of the `VBOX_VM_SETTINGS` defaults table are not modelled. The defaults are a parameter (`Defaults`).
- Settings values are `None`, booleans, integers and strings only. Floats, lists and nested dictionaries are not modelled.
- `None` and `""` are both false in Python, and the code only tests the truth of the optional first-port name and the optional node name. Both are modelled as strings in which `""` stands for "not given".
- The segment size is an integer. Other Python values, whose truth value would be tested instead, are not modelled.
- CreateCycleMatchesPorts: how the node base class handles the creation response before calling `_createCallback` is not modelled; the lemma assumes the settings are unchanged in between. So when `additional` carries `adapters`, the model's ports follow the local default count and not the count the request asked for. `CreateCallbackEstablishesMatch` states the match for whatever settings the node holds at callback time.
- `_createCallback` ignores its `result` argument, so `CreateCallback` has no such parameter.
