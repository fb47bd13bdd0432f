/** The QEMU hypervisor driver: the per-VM object whose fields the driver
    updates in place while a pod's VM is being configured. */
module Qemu {
  import opened Errors
  import opened Descriptors
  import G = Govmm
  import KernelParams
  import Appenders
  import Machines

  /** What the driver persists per pod (hypervisor.json). */
  datatype PersistedState = PersistedState(config: HypervisorConfig, path: string, kernelParams: seq<string>)

  /** The pod's storage as init sees it: whether the pod's directory exists and
      what, if anything, was persisted there before. A saved state lies inside
      the pod's directory, so it implies the directory exists. */
  datatype PodStorage = PodStorage(parentDirExists: bool, saved: Option<PersistedState>)

  class Qemu {
    var config: HypervisorConfig
    var path: string
    var kernelParams: seq<string>
    var nestedRun: bool
    var devices: seq<G.Device>
    var machineType: string

    /** A driver over the given configuration, before init or any device is added. */
    constructor (config: HypervisorConfig, nestedRun: bool)
      ensures this.config == config && this.nestedRun == nestedRun
      ensures path == "" && kernelParams == [] && devices == [] && machineType == ""
    {
      this.config := config;
      this.nestedRun := nestedRun;
      path := "";
      kernelParams := [];
      devices := [];
      machineType := "";
    }

    /** buildKernelParams: store the command line for the current configuration. */
    method BuildKernelParams()
      modifies this`kernelParams
      ensures kernelParams == KernelParams.Build(config.debug, config.kernelParams)
    {
      var params := KernelParams.BASE_WORDS;
      if config.debug {
        params := params + KernelParams.DEBUG_WORDS;
      } else {
        params := params + KernelParams.QUIET_WORDS;
      }
      ghost var blocks := params;
      var user := config.kernelParams;
      for i := 0 to |user|
        invariant params == blocks + KernelParams.Serialized(user[..i])
      {
        assert user[..i + 1][..i] == user[..i];
        params := params + [KernelParams.Render(user[i])];
      }
      assert user[..|user|] == user;
      kernelParams := params;
    }

    /** addDevice: append the device for the descriptor to the VM's device
      list; nothing already there changes. */
    method AddDevice(info: DeviceInfo)
      modifies this`devices
      ensures devices == Appenders.AppendDevice(old(devices), nestedRun, info)
      ensures |devices| == |old(devices)| + 1 && devices[..|old(devices)|] == old(devices)
    {
      match info {
        case VolumeInfo(v) => devices := Appenders.AppendVolume(devices, nestedRun, v);
        case SocketInfo(s) => devices := Appenders.AppendSocket(devices, s);
        case DriveInfo(d) => devices := Appenders.AppendBlockDevice(devices, nestedRun, d);
        case VFIOInfo(v) => devices := Appenders.AppendVFIODevice(devices, v);
        case VhostUserNetInfo(v) => devices := Appenders.AppendVhostUserDevice(devices, v);
      }
    }

    /** capabilities: derived from the stored machine type alone. */
    function Capabilities(): (caps: Machines.Capabilities)
      reads this`machineType
      ensures caps.IsBlockDeviceHotplugSupported() <==> machineType == Machines.QEMU_PC
      ensures caps.IsBlockDeviceHotplugSupported() ==> Machines.IsSupportedMachineType(machineType)
    {
      Machines.HotplugOnlyOnSupportedMachine(machineType);
      Machines.CapabilitiesOf(machineType)
    }

    /** init: restore the pod's persisted configuration when there is one;
      otherwise take hc, resolve the hypervisor path, build the kernel
      parameters and persist the result, which fails, changing nothing, when
      the pod's storage directory does not exist. */
    method Init(podID: string, hc: HypervisorConfig, storage: PodStorage) returns (r: Outcome, stored: PodStorage)
      requires storage.saved.Some? ==> storage.parentDirExists
      modifies this`config, this`path, this`kernelParams
      ensures storage.saved.Some? ==>
        && r == Pass && stored == storage
        && config == storage.saved.value.config
        && path == storage.saved.value.path
        && kernelParams == storage.saved.value.kernelParams
      ensures storage.saved.None? && !storage.parentDirExists ==>
        && r == Fail(StorageParentDirMissing(podID)) && stored == storage
        && config == old(config) && path == old(path) && kernelParams == old(kernelParams)
      ensures storage.saved.None? && storage.parentDirExists ==>
        && r == Pass
        && config == hc && path == hc.hypervisorPath
        && kernelParams == KernelParams.Build(hc.debug, hc.kernelParams)
        && stored == PodStorage(true, Some(PersistedState(config, path, kernelParams)))
    {
      match storage.saved {
        case Some(s) =>
          config, path, kernelParams := s.config, s.path, s.kernelParams;
          return Pass, storage;
        case None =>
          if !storage.parentDirExists {
            return Fail(StorageParentDirMissing(podID)), storage;
          }
          config := hc;
          path := hc.hypervisorPath;
          BuildKernelParams();
          return Pass, PodStorage(true, Some(PersistedState(config, path, kernelParams)));
      }
    }
  }

  /** A second init on the storage a first one wrote loads exactly what the
      first one built, whatever configuration it is handed. */
  method InitTwice(podID: string, hc: HypervisorConfig, other: HypervisorConfig, nestedRun: bool)
    returns (first: Qemu, second: Qemu)
    ensures first.config == second.config == hc
    ensures first.path == second.path && first.kernelParams == second.kernelParams
    ensures second.kernelParams == KernelParams.Build(hc.debug, hc.kernelParams)
  {
    first := new Qemu(hc, nestedRun);
    var r1, stored := first.Init(podID, hc, PodStorage(true, None));
    second := new Qemu(other, nestedRun);
    var r2, stored2 := second.Init(podID, other, stored);
  }
}
