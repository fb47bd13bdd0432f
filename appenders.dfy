/** The per-kind device rules of the QEMU driver: each appender returns the
    device list it was given with the new device(s) added at the end. The
    nestedRun flag is the driver's "running inside another VM" setting. */
module Appenders {
  import opened Strings
  import opened Descriptors
  import G = Govmm

  /** Prefix of the identifier of a 9p share device; the mount tag follows it. */
  const FS_DEVICE_PREFIX: string := "extra-9p-"
  /** Prefixes of a vhost-user device's character-device and network-device ids. */
  const CHAR_DEV_PREFIX: string := "char-"
  const NET_DEV_PREFIX: string := "net-"

  const SERIAL_ID: string := "serial0"
  const CONSOLE_DEVICE_ID: string := "console0"
  const CONSOLE_CHAR_ID: string := "charconsole0"

  /** The 9p share for one volume. */
  function VolumeDevice(nestedRun: bool, v: Volume): G.Device
  {
    G.FSDevice(G.Virtio9P, G.Local, FS_DEVICE_PREFIX + v.mountTag, v.hostPath, v.mountTag,
               G.None, nestedRun)
  }

  /** appendVolume: one 9p share exporting the host path under the mount tag. */
  function AppendVolume(devices: seq<G.Device>, nestedRun: bool, v: Volume): (r: seq<G.Device>)
    ensures |r| == |devices| + 1 && r[..|devices|] == devices
    ensures r[|devices|].FSDevice?
    ensures r[|devices|].driver == G.Virtio9P && r[|devices|].fsDriver == G.Local
    ensures r[|devices|].id == "extra-9p-" + v.mountTag
    ensures r[|devices|].path == v.hostPath && r[|devices|].mountTag == v.mountTag
    ensures r[|devices|].securityModel == G.None
    ensures r[|devices|].disableModern == nestedRun
  {
    devices + [VolumeDevice(nestedRun, v)]
  }

  /** appendSocket: one virtio serial port on a socket backend; the flag for
      nested runs is not set on character devices. */
  function AppendSocket(devices: seq<G.Device>, s: Socket): (r: seq<G.Device>)
    ensures |r| == |devices| + 1 && r[..|devices|] == devices
    ensures r[|devices|].CharDevice?
    ensures r[|devices|].driver == G.VirtioSerialPort && r[|devices|].backend == G.Socket
    ensures r[|devices|].deviceID == s.deviceID && r[|devices|].id == s.id
    ensures r[|devices|].path == s.hostPath && r[|devices|].name == s.name
    ensures !r[|devices|].disableModern
  {
    devices + [G.CharDevice(G.VirtioSerialPort, G.Socket, s.deviceID, s.id, s.hostPath, s.name, false)]
  }

  /** appendBlockDevice: one virtio block device on thread-pool AIO, no
      interface, format and file as given. */
  function AppendBlockDevice(devices: seq<G.Device>, nestedRun: bool, d: Drive): (r: seq<G.Device>)
    ensures |r| == |devices| + 1 && r[..|devices|] == devices
    ensures r[|devices|].BlockDevice?
    ensures r[|devices|].driver == G.VirtioBlock && r[|devices|].aio == G.Threads
    ensures r[|devices|].id == d.id && r[|devices|].file == d.file
    ensures r[|devices|].format == d.format && r[|devices|].interface == "none"
    ensures r[|devices|].disableModern == nestedRun
  {
    devices + [G.BlockDevice(G.VirtioBlock, d.id, d.file, G.Threads, d.format, "none", nestedRun)]
  }

  /** appendVFIODevice: one passthrough device carrying only the host address. */
  function AppendVFIODevice(devices: seq<G.Device>, v: VFIODevice): (r: seq<G.Device>)
    ensures |r| == |devices| + 1 && r[..|devices|] == devices
    ensures r[|devices|] == G.VFIODevice(v.bdf)
  {
    devices + [G.VFIODevice(v.bdf)]
  }

  /** appendVhostUserDevice: one vhost-user network device whose two ids are
      the descriptor's id under the "char-" and "net-" prefixes. */
  function AppendVhostUserDevice(devices: seq<G.Device>, v: VhostUserNetDevice): (r: seq<G.Device>)
    ensures |r| == |devices| + 1 && r[..|devices|] == devices
    ensures r[|devices|].VhostUserDevice?
    ensures r[|devices|].charDevID == "char-" + v.id && r[|devices|].typeDevID == "net-" + v.id
    ensures r[|devices|].socketPath == v.socketPath && r[|devices|].address == v.macAddress
    ensures r[|devices|].vhostUserType == G.VhostUserNet
  {
    devices + [G.VhostUserDevice(v.socketPath, CHAR_DEV_PREFIX + v.id, NET_DEV_PREFIX + v.id,
                                 v.macAddress, G.VhostUserNet)]
  }

  /** appendFSDevices: one 9p share per pod volume, in volume order; the
      pod's containers play no part. */
  method AppendFSDevices(devices: seq<G.Device>, nestedRun: bool, pod: PodConfig) returns (r: seq<G.Device>)
    ensures |r| == |devices| + |pod.volumes| && r[..|devices|] == devices
    ensures forall i :: 0 <= i < |pod.volumes| ==> r[|devices| + i] == VolumeDevice(nestedRun, pod.volumes[i])
  {
    r := devices;
    for i := 0 to |pod.volumes|
      invariant |r| == |devices| + i && r[..|devices|] == devices
      invariant forall k :: 0 <= k < i ==> r[|devices| + k] == VolumeDevice(nestedRun, pod.volumes[k])
    {
      r := AppendVolume(r, nestedRun, pod.volumes[i]);
    }
  }

  /** getPodConsole: the pod's console socket, <run storage>/<pod id>/<console name>. */
  function PodConsole(runStoragePath: string, podID: string, consoleName: string): (path: string)
    ensures runStoragePath != "" && podID != "" && consoleName != "" ==>
      path == runStoragePath + "/" + podID + "/" + consoleName
  {
    if runStoragePath != "" && podID != "" && consoleName != "" then
      JoinPathThree(runStoragePath, podID, consoleName);
      JoinPath([runStoragePath, podID, consoleName])
    else
      JoinPath([runStoragePath, podID, consoleName])
  }

  /** A single path element: non-empty, without a separator, and neither "."
      nor "..", so path cleaning leaves it and its neighbours alone. */
  predicate IsPathSegment(s: string)
  {
    s != "" && s != "." && s != ".." && forall i :: 0 <= i < |s| ==> s[i] != '/'
  }

  /** appendConsoles: exactly two devices, the virtio serial controller and
      the console on the pod's console socket. */
  function AppendConsoles(devices: seq<G.Device>, nestedRun: bool, pod: PodConfig,
                          runStoragePath: string, consoleName: string): (r: seq<G.Device>)
    ensures |r| == |devices| + 2 && r[..|devices|] == devices
    ensures r[|devices|] == G.SerialDevice(G.VirtioSerial, "serial0", nestedRun)
    ensures r[|devices| + 1].CharDevice?
    ensures r[|devices| + 1].driver == G.Console && r[|devices| + 1].backend == G.Socket
    ensures r[|devices| + 1].deviceID == "console0" && r[|devices| + 1].id == "charconsole0"
    ensures r[|devices| + 1].path == PodConsole(runStoragePath, pod.id, consoleName)
    ensures r[|devices| + 1].name == "" && !r[|devices| + 1].disableModern
  {
    devices + [G.SerialDevice(G.VirtioSerial, SERIAL_ID, nestedRun),
               G.CharDevice(G.Console, G.Socket, CONSOLE_DEVICE_ID, CONSOLE_CHAR_ID,
                            PodConsole(runStoragePath, pod.id, consoleName), "", false)]
  }

  /** addDevice's dispatch: the append rule for the descriptor's kind. */
  function AppendDevice(devices: seq<G.Device>, nestedRun: bool, info: DeviceInfo): (r: seq<G.Device>)
    ensures |r| == |devices| + 1 && r[..|devices|] == devices
    ensures r[|devices|].FSDevice? <==> info.VolumeInfo?
    ensures r[|devices|].CharDevice? <==> info.SocketInfo?
    ensures r[|devices|].BlockDevice? <==> info.DriveInfo?
    ensures r[|devices|].VFIODevice? <==> info.VFIOInfo?
    ensures r[|devices|].VhostUserDevice? <==> info.VhostUserNetInfo?
    ensures G.DisableModern(r[|devices|]) == (nestedRun && (info.VolumeInfo? || info.DriveInfo?))
  {
    match info
    case VolumeInfo(v) => AppendVolume(devices, nestedRun, v)
    case SocketInfo(s) => AppendSocket(devices, s)
    case DriveInfo(d) => AppendBlockDevice(devices, nestedRun, d)
    case VFIOInfo(v) => AppendVFIODevice(devices, v)
    case VhostUserNetInfo(v) => AppendVhostUserDevice(devices, v)
  }

  /** The 9p share identifier determines the mount tag: distinct tags give
      distinct identifiers. */
  lemma VolumeIdsInjective(nestedRun: bool, v: Volume, w: Volume)
    requires v.mountTag != w.mountTag
    ensures VolumeDevice(nestedRun, v).id != VolumeDevice(nestedRun, w).id
  {
    var a, b := FS_DEVICE_PREFIX + v.mountTag, FS_DEVICE_PREFIX + w.mountTag;
    assert a[|FS_DEVICE_PREFIX|..] == v.mountTag;
    assert b[|FS_DEVICE_PREFIX|..] == w.mountTag;
  }

  /** Volumes with pairwise distinct mount tags yield shares with pairwise
      distinct identifiers; with AppendFSDevices' per-volume ensures this
      covers every share it appends. */
  lemma VolumeDevicesDistinct(nestedRun: bool, vols: seq<Volume>)
    requires forall i, j :: 0 <= i < j < |vols| ==> vols[i].mountTag != vols[j].mountTag
    ensures forall i, j :: 0 <= i < j < |vols| ==>
      VolumeDevice(nestedRun, vols[i]).id != VolumeDevice(nestedRun, vols[j]).id
  {
    forall i, j | 0 <= i < j < |vols|
      ensures VolumeDevice(nestedRun, vols[i]).id != VolumeDevice(nestedRun, vols[j]).id
    {
      VolumeIdsInjective(nestedRun, vols[i], vols[j]);
    }
  }

  /** The console's character-device id can never be a vhost-user
      character-device id, nor a 9p share id. */
  lemma ConsoleIdIsReserved(x: string)
    ensures CONSOLE_CHAR_ID != CHAR_DEV_PREFIX + x
    ensures CONSOLE_CHAR_ID != FS_DEVICE_PREFIX + x
  {
    assert (CHAR_DEV_PREFIX + x)[4] == '-' && CONSOLE_CHAR_ID[4] == 'c';
    assert (FS_DEVICE_PREFIX + x)[0] == 'e';
  }

  /** Different pods get different console sockets, for pod ids and a console
      name that are single path elements. */
  lemma PodConsoleInjective(runStoragePath: string, p: string, q: string, consoleName: string)
    requires runStoragePath != "" && IsPathSegment(consoleName)
    requires IsPathSegment(p) && IsPathSegment(q) && p != q
    ensures PodConsole(runStoragePath, p, consoleName) != PodConsole(runStoragePath, q, consoleName)
  {
    var pre, post := runStoragePath + "/", "/" + consoleName;
    var a, b := pre + p + post, pre + q + post;
    assert PodConsole(runStoragePath, p, consoleName) == a;
    assert PodConsole(runStoragePath, q, consoleName) == b;
    if |p| == |q| {
      assert a[|pre|..|pre| + |p|] == p;
      assert b[|pre|..|pre| + |q|] == q;
    }
  }
}
