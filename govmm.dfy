/** The configuration records of the hypervisor library (govmm's qemu package)
    that the driver fills in. Only the fields the driver sets are modelled;
    the library's rendering of them into QEMU arguments is not. */
module Govmm {

  type Uint8 = x: nat | x < 0x100
  type Uint32 = x: nat | x < 0x1_0000_0000

  /** Device drivers (the library's DeviceDriver constants). */
  datatype DeviceDriver = Virtio9P | VirtioSerialPort | VirtioBlock | VirtioSerial | Console

  /** File system drivers for 9p shares. */
  datatype FSDriver = Local

  /** 9p security models. */
  datatype SecurityModel = None

  /** Character device backends. */
  datatype CharDeviceBackend = Socket

  /** Block device asynchronous I/O modes. */
  datatype BlockDeviceAIO = Threads

  /** Vhost-user device kinds. */
  datatype VhostUserType = VhostUserNet

  /** One device handed to the hypervisor. disableModern turns off virtio 1.0
      ("modern") negotiation on the device. */
  datatype Device =
    | FSDevice(driver: DeviceDriver, fsDriver: FSDriver, id: string, path: string,
               mountTag: string, securityModel: SecurityModel, disableModern: bool)
    | CharDevice(driver: DeviceDriver, backend: CharDeviceBackend, deviceID: string,
                 id: string, path: string, name: string, disableModern: bool)
    | BlockDevice(driver: DeviceDriver, id: string, file: string, aio: BlockDeviceAIO,
                  format: string, interface: string, disableModern: bool)
    | VFIODevice(bdf: string)
    | VhostUserDevice(socketPath: string, charDevID: string, typeDevID: string,
                      address: string, vhostUserType: VhostUserType)
    | SerialDevice(driver: DeviceDriver, id: string, disableModern: bool)

  /** The legacy-negotiation flag of a device; kinds without the field have it off. */
  function DisableModern(d: Device): bool
  {
    match d
    case FSDevice(_, _, _, _, _, _, flag) => flag
    case CharDevice(_, _, _, _, _, _, flag) => flag
    case BlockDevice(_, _, _, _, _, _, flag) => flag
    case SerialDevice(_, _, flag) => flag
    case _ => false
  }

  /** The machine (chipset profile) to emulate. */
  datatype Machine = Machine(machineType: string)

  /** CPU topology. */
  datatype SMP = SMP(cpus: Uint32, cores: Uint32, sockets: Uint32, threads: Uint32)

  /** Memory sizing: boot size, hotplug slots and hotplug ceiling, both sizes as "<MiB>M". */
  datatype Memory = Memory(size: string, slots: Uint8, maxMem: string)
}
