/** The machine types the driver accepts, and the capabilities each brings. */
module Machines {
  import opened Errors
  import G = Govmm

  const QEMU_PC_LITE: string := "pc-lite"
  const QEMU_PC: string := "pc"
  const QEMU_Q35: string := "q35"

  /** The supported machines, in the order they are looked up. */
  const SUPPORTED_MACHINES: seq<G.Machine> :=
    [G.Machine(QEMU_PC_LITE), G.Machine(QEMU_PC), G.Machine(QEMU_Q35)]

  /** A machine type is accepted exactly when it is one of the three names,
      compared case-sensitively. */
  predicate IsSupportedMachineType(t: string)
  {
    t == QEMU_PC_LITE || t == QEMU_PC || t == QEMU_Q35
  }

  /** getMachine: look the name up in the machine table. */
  method GetMachine(name: string) returns (r: Result<G.Machine>)
    ensures r.Ok? <==> IsSupportedMachineType(name)
    ensures r.Ok? ==> r.value.machineType == name && r.value in SUPPORTED_MACHINES
    ensures r.Err? ==> r.error == UnrecognisedMachineType(name)
  {
    for i := 0 to |SUPPORTED_MACHINES|
      invariant forall k :: 0 <= k < i ==> SUPPORTED_MACHINES[k].machineType != name
    {
      if SUPPORTED_MACHINES[i].machineType == name {
        return Ok(SUPPORTED_MACHINES[i]);
      }
    }
    assert SUPPORTED_MACHINES[0].machineType == QEMU_PC_LITE;
    assert SUPPORTED_MACHINES[1].machineType == QEMU_PC;
    assert SUPPORTED_MACHINES[2].machineType == QEMU_Q35;
    return Err(UnrecognisedMachineType(name));
  }

  /** Upper-case spellings, blanks and numbers are all rejected. */
  lemma RejectedMachineTypes()
    ensures !IsSupportedMachineType("PC-LITE") && !IsSupportedMachineType("PC")
    ensures !IsSupportedMachineType("Q35") && !IsSupportedMachineType("")
    ensures !IsSupportedMachineType(" ") && !IsSupportedMachineType(".")
    ensures !IsSupportedMachineType("0") && !IsSupportedMachineType("1")
    ensures !IsSupportedMachineType("-1") && !IsSupportedMachineType("bon")
  {
  }

  datatype CapabilityFlag = BlockDeviceHotplugSupport

  /** The hypervisor's capability flags. */
  datatype Capabilities = Capabilities(flags: set<CapabilityFlag>)
  {
    predicate IsBlockDeviceHotplugSupported()
    {
      BlockDeviceHotplugSupport in flags
    }

    function SetBlockDeviceHotplugSupport(): (c: Capabilities)
      ensures c.IsBlockDeviceHotplugSupported()
      ensures flags <= c.flags
    {
      Capabilities(flags + {BlockDeviceHotplugSupport})
    }
  }

  /** The capabilities of a machine type: only "pc" hotplugs block devices. */
  function CapabilitiesOf(machineType: string): (caps: Capabilities)
    ensures caps.IsBlockDeviceHotplugSupported() <==> machineType == QEMU_PC
  {
    var caps := Capabilities({});
    if machineType == QEMU_PC then caps.SetBlockDeviceHotplugSupport() else caps
  }

  /** Hotplug is never reported for a machine type getMachine would refuse,
      and it is reported for exactly one supported type. */
  lemma HotplugOnlyOnSupportedMachine(t: string)
    ensures CapabilitiesOf(t).IsBlockDeviceHotplugSupported() ==> IsSupportedMachineType(t)
    ensures IsSupportedMachineType(t) && t != QEMU_PC ==> !CapabilitiesOf(t).IsBlockDeviceHotplugSupported()
  {
  }
}
