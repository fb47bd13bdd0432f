/** The driver's error values and the wrappers that carry them in place of
    Go's (value, error) pairs. */
module Errors {

  datatype QemuError =
    | UnrecognisedMachineType(name: string)  // getMachine: name not in the machine table
    | HostMemoryUnreadable                   // setMemoryResources: host memory info unavailable
    | StorageParentDirMissing(podID: string) // init: the pod's storage directory does not exist

  datatype Result<+T> = Ok(value: T) | Err(error: QemuError)

  datatype Option<+T> = None | Some(value: T)

  datatype Outcome = Pass | Fail(error: QemuError)
}
