/** CPU topology and memory sizing of the VM, from the pod's resource request. */
module ResourceCalc {
  import opened Strings
  import opened Errors
  import opened Descriptors
  import G = Govmm

  const UINT32_RANGE: nat := 0x1_0000_0000

  /** Memory hotplug slots reserved on every VM. */
  const DEFAULT_MEM_SLOTS: G.Uint8 := 2

  /** setCPUResources: a flat topology of one socket with one thread per core
      and one core per vCPU. The request is a Go uint converted to uint32, so
      counts of 2^32 and more wrap. */
  function SetCPUResources(pod: PodConfig): (smp: G.SMP)
    ensures smp.cpus == smp.cores && smp.sockets == 1 && smp.threads == 1
    ensures smp.sockets * smp.cores * smp.threads == smp.cpus
    ensures pod.vmConfig.vcpus < UINT32_RANGE ==> smp.cpus == pod.vmConfig.vcpus
    ensures (pod.vmConfig.vcpus - smp.cpus) % UINT32_RANGE == 0
  {
    var vcpus := pod.vmConfig.vcpus % UINT32_RANGE;
    G.SMP(vcpus, vcpus, 1, 1)
  }

  /** fmt.Sprintf("%dM", mib): a size in MiB as the hypervisor reads it. */
  function MemSize(mib: nat): string
  {
    Decimal(mib) + "M"
  }

  /** Reading a "<digits>M" size back; anything else is not a size. */
  function ParseMemSize(s: string): Option<nat>
  {
    if |s| >= 2 && s[|s| - 1] == 'M' && AllDigits(s[..|s| - 1])
    then Some(ParseDecimal(s[..|s| - 1]))
    else None
  }

  /** A size as %d renders it: digits without a leading zero, then "M". */
  predicate IsCanonicalSize(s: string)
  {
    |s| >= 2 && s[|s| - 1] == 'M' && AllDigits(s[..|s| - 1]) && (s[0] == '0' ==> |s| == 2)
  }

  /** A rendered size reads back as the number of MiB it was made from. */
  lemma MemSizeRoundTrip(mib: nat)
    ensures ParseMemSize(MemSize(mib)) == Some(mib)
    ensures IsCanonicalSize(MemSize(mib))
  {
    var s := MemSize(mib);
    assert s[..|s| - 1] == Decimal(mib);
    DecimalRoundTrip(mib);
  }

  /** A canonical size is the rendering of the value it parses to, so a
      canonical size is fixed by its value. */
  lemma MemSizeOfParse(s: string)
    requires IsCanonicalSize(s)
    ensures ParseMemSize(s).Some? && s == MemSize(ParseMemSize(s).value)
  {
    var digits := s[..|s| - 1];
    DecimalOfParse(digits);
    assert s == digits + "M";
  }

  /** setMemoryResources: the boot size is the request in MiB, two hotplug
      slots are reserved, and the hotplug ceiling is host memory in MiB plus
      maxMemoryOffset. hostMemKb is the host's total memory in KiB, or None
      when it could not be read, which fails the call. */
  function SetMemoryResources(pod: PodConfig, hostMemKb: Option<nat>, maxMemoryOffset: nat): (r: Result<G.Memory>)
    ensures r.Ok? <==> hostMemKb.Some?
    ensures r.Err? ==> r.error == HostMemoryUnreadable
    ensures r.Ok? ==> ParseMemSize(r.value.size) == Some(pod.vmConfig.memory)
    ensures r.Ok? ==> r.value.slots == 2
    ensures r.Ok? ==> ParseMemSize(r.value.maxMem) == Some(hostMemKb.value / 1024 + maxMemoryOffset)
    ensures r.Ok? ==> IsCanonicalSize(r.value.size) && IsCanonicalSize(r.value.maxMem)
  {
    match hostMemKb
    case None => Err(HostMemoryUnreadable)
    case Some(kb) =>
      MemSizeRoundTrip(pod.vmConfig.memory);
      MemSizeRoundTrip(kb / 1024 + maxMemoryOffset);
      Ok(G.Memory(MemSize(pod.vmConfig.memory), DEFAULT_MEM_SLOTS, MemSize(kb / 1024 + maxMemoryOffset)))
  }

  /** Different requests give different size strings. */
  lemma MemSizeInjective(m: nat, n: nat)
    requires m != n
    ensures MemSize(m) != MemSize(n)
  {
    MemSizeRoundTrip(m);
    MemSizeRoundTrip(n);
  }
}
