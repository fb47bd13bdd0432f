# QEMU hypervisor driver — configuration model

This project models, in Dafny, the configuration logic of the QEMU driver in
virtcontainers, the VM-based container runtime. Given a pod, the driver builds
the VM's boot and device configuration:

- the guest kernel command line, in three layers: a fixed base block, then a
  debug or quiet block, then the user's `key=value` parameters;
- the device list handed to the hypervisor, one rule per device kind: 9p
  shares, serial ports, block devices, PCI passthrough, vhost-user network
  devices and the pod console. The list only ever grows at the end;
- CPU topology and memory sizing;
- the accepted machine types and the block-hotplug capability they bring;
- `init`, which restores a persisted configuration or builds and persists a
  fresh one.

Contracts follow the outputs that `qemu_test.go` expects.

Modules:

- `Strings` (strings.dfy): Go's `strings.Join`, `filepath.Join` and `%d`
  formatting. Decimal rendering comes with its inverse.
- `Errors` (errors.dfy): the driver's error values, plus `Result`, `Option`
  and `Outcome`.
- `Govmm` (govmm.dfy): the hypervisor library's device, machine, SMP and
  memory records. Each driver, backend and mode is an enumeration.
- `Descriptors` (descriptors.dfy): the runtime's inputs. These are volumes,
  sockets, drives, VFIO and vhost-user devices, the closed `DeviceInfo` sum
  that `addDevice` accepts, pod and hypervisor configuration.
- `KernelParams` (kernel_params.dfy): the kernel parameter builder.
- `Appenders` (appenders.dfy): the per-kind device rules, the bulk
  appenders, the console path, and the naming-convention lemmas.
- `ResourceCalc` (resources.dfy): CPU topology and memory sizing.
- `Machines` (machines.dfy): the machine table and the capability table.
- `Qemu` (qemu.dfy): the driver object. Its fields are the configuration, the
  hypervisor path, the kernel parameters, `nestedRun`, the device list and the
  machine type. Its methods change those fields in place.

Package constants whose values are in files not part of this model are
parameters:

- the run-storage root and the console socket name (used by `PodConsole` and
  `AppendConsoles`);
- the memory offset `maxMemoryOffset` (used by `SetMemoryResources`).

The host's memory reading is a parameter too. The persisted store is a value
that records whether the pod directory exists and what was saved.

TestQemuAppendFSDevices (qemu_test.go:257-315) expects one share per volume
and none for the containers, so `AppendFSDevices` ignores the containers.

## Model

| member | source | states |
|---|---|---|
| `KernelParams.Build` | qemu_test.go:92-98 | the stored parameters are the base block, then the debug block when debug is on or the quiet block when it is off, then one word per user parameter in the order supplied |
| `KernelParams.Serialized` | qemu_test.go:69-79 | each user parameter becomes the single word `key=value`, order kept |
| `KernelParams.CommandLine` | qemu_test.go:86-100 | the parameters joined by spaces are the base line, a space, the debug or quiet line, then a space and the user words when there are any; no trailing space when there are none |
| `Strings.JoinConcat` | qemu_test.go:96-98 | joining two non-empty lists is joining each with one separator between, which is how the test assembles the expected line |
| `Qemu.Qemu.BuildKernelParams` | qemu_test.go:49-58 | the driver's kernel-parameter field becomes exactly the sequence `Build` gives for its configuration's debug flag and user parameters |
| `Qemu.Qemu.constructor` | qemu_test.go:49-51 | a driver starts with the given configuration and nested flag, no devices, no kernel parameters and no machine type |
| `Appenders.AppendVolume` | qemu_test.go:135-158 | one device is appended and earlier ones kept; it is a 9p share (Virtio9P, Local), with id `extra-9p-<tag>`, the host path, the mount tag, no security model, and the legacy flag equal to nestedRun |
| `Appenders.AppendSocket` | qemu_test.go:160-186 | one virtio serial port on a socket backend is appended, with device id, id, path and name copied; the legacy flag stays off even when nested |
| `Appenders.AppendBlockDevice` | qemu_test.go:188-213 | one VirtioBlock device is appended, with thread-pool AIO and interface `none`; id, file and format are taken from the drive, and the legacy flag equals nestedRun |
| `Appenders.AppendVFIODevice` | qemu_test.go:215-230 | one passthrough device carrying only the BDF address is appended |
| `Appenders.AppendVhostUserDevice` | qemu_test.go:232-255 | one vhost-user network device is appended, with ids `char-<id>` and `net-<id>` and the socket path and MAC address passed through |
| `Appenders.AppendFSDevices` | qemu_test.go:257-315 | exactly one share per pod volume is appended, in volume order, each by the volume rule; earlier devices are kept and the containers play no part |
| `Appenders.VolumeIdsInjective` | qemu_test.go:144 | two volumes with different mount tags give shares with different ids |
| `Appenders.VolumeDevicesDistinct` | qemu_test.go:265-284 | when mount tags are pairwise distinct, the per-volume shares (which `AppendFSDevices` appends, index by index) have pairwise distinct ids |
| `Appenders.AppendConsoles` | qemu_test.go:317-342 | exactly two devices are appended: the virtio serial controller `serial0`, whose legacy flag equals nestedRun, then the console char device `console0`/`charconsole0` on a socket at the pod's console path, whose legacy flag is off |
| `Appenders.ConsoleIdIsReserved` | qemu_test.go:321-333 | the console's char-device id can never equal a vhost-user char-device id or a 9p share id, whatever the descriptor ids are |
| `Appenders.PodConsole` | qemu_test.go:581-589 | for non-empty parts, the console path is `<run storage>/<pod id>/<console name>` |
| `Appenders.PodConsoleInjective` | qemu_test.go:581-589 | two different pods whose ids are single path elements never share a console path |
| `Appenders.AppendDevice` | qemu_test.go:513-526 | every descriptor appends exactly one device and keeps the earlier ones; the device's kind matches the descriptor's kind (share, serial port, block, passthrough, vhost-user); the legacy flag is on exactly for shares and block devices under a nested run |
| `Qemu.Qemu.AddDevice` | qemu_test.go:513-579 | the driver's own device list grows by exactly the device the descriptor's rule gives, and nothing else in the list changes |
| `Machines.GetMachine` | qemu_test.go:591-633 | the lookup succeeds if and only if the name is `pc-lite`, `pc` or `q35`, compared case-sensitively; the machine returned has that name as its type, and any other name fails with an unrecognised-machine error |
| `Machines.RejectedMachineTypes` | qemu_test.go:602-611 | the upper-case spellings, the empty string, a blank, `.`, `0`, `1`, `-1` and `bon` are rejected |
| `Machines.CapabilitiesOf` | qemu_test.go:641-655 | block-device hotplug is reported if and only if the machine type is `pc` |
| `Machines.HotplugOnlyOnSupportedMachine` | qemu_test.go:641-655 | hotplug is never reported for a type the lookup rejects, nor for `pc-lite` or `q35` |
| `Qemu.Qemu.Capabilities` | qemu_test.go:659-663 | the driver's capabilities depend on its stored machine type only; hotplug is reported if and only if that type is `pc`, which is always a supported type |
| `ResourceCalc.SetCPUResources` | qemu_test.go:451-476 | CPUs equal cores, with one socket and one thread per core, so sockets × cores × threads equals CPUs; a request below 2^32 is kept as is, and a larger one wraps as in uint32 |
| `ResourceCalc.SetMemoryResources` | qemu_test.go:478-511 | the call succeeds if and only if host memory could be read. The size is then a canonical `<digits>M` string (no leading zero) that reads back as the requested MiB, and 2 slots are reserved. The ceiling is a canonical size that reads back as host KiB / 1024 plus the offset |
| `ResourceCalc.MemSizeRoundTrip` | qemu_test.go:487-490 | a size rendered as `<n>M` is canonical and parses back to n |
| `ResourceCalc.MemSizeOfParse` | qemu_test.go:487-490 | a canonical size is exactly the rendering of the value it parses to, so size and ceiling above are the exact `%dM` strings |
| `ResourceCalc.MemSizeInjective` | qemu_test.go:490 | different MiB counts give different size strings |
| `Strings.Decimal` | qemu_test.go:487 | `%d` output is a non-empty string of digits without a leading zero |
| `Strings.DecimalRoundTrip` | qemu_test.go:487 | parsing the decimal rendering of n gives n |
| `Strings.DecimalOfParse` | qemu_test.go:487 | a digit string without a leading zero is the decimal rendering of its value |
| `Qemu.Qemu.Init` | qemu_test.go:386-449 | with a saved state, init loads config, path and parameters from it. With none and no pod directory, it fails and changes nothing, neither the driver nor the storage. Otherwise the config is the one given, the path is its hypervisor path, the parameters are `Build` of its debug flag and user parameters, and exactly that state is saved |
| `Qemu.InitTwice` | qemu_test.go:404-425 | a second init on the storage the first one wrote loads the first one's configuration, path and parameters, whatever configuration the second is given |

## Left out

- `appendImage` is not modelled. It opens and stats the guest image to size an NVDIMM object, which is file I/O.
- Rendering the device records into QEMU's argument syntax and launching the hypervisor are not modelled. Both belong to the govmm library and to process I/O.
- pkg/annotations/annotations.go is not part of this model. It only defines annotation-name constants.
- Qemu.Qemu.AddDevice: the device-type tag argument is not modelled, because dispatch follows the descriptor's own kind. The error result is not modelled either, because every kind in the closed descriptor type has a rule that cannot fail.
- KernelParams.Serialized: every user parameter renders as `key=value`. What the builder does with an empty key or an empty value is not modelled.
- Qemu.Qemu.BuildKernelParams: the error result is not modelled, because the builder has no failing input.
- ResourceCalc.SetCPUResources: any fallback to the configured default for a zero request is not modelled, because it is not in the test file. The request is used as given.
- ResourceCalc.SetMemoryResources: the same holds for the memory request. The host reading from `/proc/meminfo` is an input. `int(float64(kb)/1024)` is modelled as integer division, which agrees with the float computation only for readings below 2^53 KiB.
- Appenders.PodConsoleInjective: holds for pod ids and a console name that are single path elements (no `/`, not `.` or `..`). Cleaning merges ids such as `x` and `x/`, which then share a console path.
- Appenders.PodConsole: `filepath.Join` is modelled as skipping empty elements and joining the rest with `/`. Lexical cleaning (`.`, `..`, repeated slashes) is not modelled.
- Qemu.Qemu.Init: storage is an abstract value, not a file, and JSON encoding is not modelled. The hypervisor path is the configured one, without any default substitution. The configuration validity check is not modelled. A saved state implies the pod directory exists, which `Init` requires of its storage argument.
- The machine records carry only their type. The accelerator list is not modelled.
- The run-storage root, the console name and the memory offset are parameters, not constants, because the files that define them are not part of this model.
