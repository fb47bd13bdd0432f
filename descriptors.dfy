/** The runtime's own descriptions of what a pod needs: the inputs the QEMU
    driver turns into hypervisor devices and sizing. */
module Descriptors {

  /** A host directory shared into the guest under a 9p mount tag. */
  datatype Volume = Volume(mountTag: string, hostPath: string)

  /** A host socket exposed as a virtio serial port. */
  datatype Socket = Socket(deviceID: string, id: string, hostPath: string, name: string)

  /** A host file exposed as a block device. */
  datatype Drive = Drive(file: string, format: string, id: string)

  /** A host PCI device passed through, named by its bus:device.function address. */
  datatype VFIODevice = VFIODevice(bdf: string)

  /** A vhost-user network interface backed by a host socket. */
  datatype VhostUserNetDevice = VhostUserNetDevice(id: string, socketPath: string, macAddress: string)

  /** What addDevice accepts: one descriptor of any kind. */
  datatype DeviceInfo =
    | VolumeInfo(volume: Volume)
    | SocketInfo(socket: Socket)
    | DriveInfo(drive: Drive)
    | VFIOInfo(vfio: VFIODevice)
    | VhostUserNetInfo(vhostUser: VhostUserNetDevice)

  datatype ContainerConfig = ContainerConfig(id: string, rootFs: string)

  /** Requested VM resources: vCPU count and memory in MiB (Go uint values). */
  datatype Resources = Resources(vcpus: nat, memory: nat)

  datatype PodConfig = PodConfig(id: string, vmConfig: Resources, volumes: seq<Volume>,
                                 containers: seq<ContainerConfig>)

  /** A user-supplied kernel parameter. */
  datatype Param = Param(key: string, value: string)

  datatype HypervisorConfig = HypervisorConfig(
    kernelPath: string,
    imagePath: string,
    hypervisorPath: string,
    defaultVCPUs: nat,
    defaultMemSz: nat,
    defaultBridges: nat,
    kernelParams: seq<Param>,
    debug: bool)
}
