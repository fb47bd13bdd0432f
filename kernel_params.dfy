/** The guest kernel command line: a fixed base block, then a debug or quiet
    block, then the user's key=value parameters in the order given. */
module KernelParams {
  import opened Strings
  import opened Descriptors

  /** The three blocks of the command line, one entry per word. The base block
      sets the root device, its file system and mount flags, timer,
      keyboard-controller and PCI quirks, two hypervisor consoles, and turns
      off crypto self-tests and predictable network names; the debug block
      turns on kernel and systemd verbosity, the quiet block turns it off. */
  const BASE_WORDS: seq<string> := [
    "root=/dev/pmem0p1", "rootflags=dax,data=ordered,errors=remount-ro", "rw",
    "rootfstype=ext4", "tsc=reliable", "no_timer_check", "rcupdate.rcu_expedited=1",
    "i8042.direct=1", "i8042.dumbkbd=1", "i8042.nopnp=1", "i8042.noaux=1",
    "noreplace-smp", "reboot=k", "panic=1", "console=hvc0", "console=hvc1",
    "initcall_debug", "iommu=off", "cryptomgr.notests", "net.ifnames=0", "pci=lastbus=0"]
  const QUIET_WORDS: seq<string> := ["quiet", "systemd.show_status=false"]
  const DEBUG_WORDS: seq<string> := ["debug", "systemd.show_status=true", "systemd.log_level=debug"]

  function ModeWords(debug: bool): seq<string>
  {
    if debug then DEBUG_WORDS else QUIET_WORDS
  }

  /** One user parameter as a command-line word. */
  function Render(p: Param): string
  {
    p.key + "=" + p.value
  }

  /** The user parameters as command-line words, in the order supplied. */
  function Serialized(params: seq<Param>): (r: seq<string>)
    ensures |r| == |params|
    ensures forall i :: 0 <= i < |params| ==> r[i] == params[i].key + "=" + params[i].value
  {
    if params == [] then [] else Serialized(params[..|params| - 1]) + [Render(params[|params| - 1])]
  }

  /** The kernel parameter sequence the driver stores for a configuration. */
  function Build(debug: bool, user: seq<Param>): (r: seq<string>)
    ensures |r| == |BASE_WORDS| + |ModeWords(debug)| + |user|
    ensures r[..|BASE_WORDS|] == BASE_WORDS
    ensures r[|BASE_WORDS|..|BASE_WORDS| + |ModeWords(debug)|] == ModeWords(debug)
    ensures r[|BASE_WORDS| + |ModeWords(debug)|..] == Serialized(user)
  {
    BASE_WORDS + ModeWords(debug) + Serialized(user)
  }

  /** Joining three consecutive blocks, the last possibly empty, for any blocks. */
  lemma JoinBlocks(base: seq<string>, mode: seq<string>, rest: seq<string>)
    requires base != [] && mode != []
    ensures Join(base + mode + rest, " ") ==
      Join(base, " ") + " " + Join(mode, " ") + (if rest == [] then "" else " " + Join(rest, " "))
  {
    JoinConcat(base, mode, " ");
    if rest != [] {
      JoinConcat(base + mode, rest, " ");
    } else {
      assert base + mode + rest == base + mode;
    }
  }

  /** The command line, joined by spaces, is the base line, then the debug or
      quiet line, then the user's key=value words when there are any. */
  lemma CommandLine(debug: bool, user: seq<Param>)
    ensures Join(Build(debug, user), " ") ==
      Join(BASE_WORDS, " ") + " " + Join(ModeWords(debug), " ")
      + (if user == [] then "" else " " + Join(Serialized(user), " "))
  {
    JoinBlocks(BASE_WORDS, ModeWords(debug), Serialized(user));
  }
}
