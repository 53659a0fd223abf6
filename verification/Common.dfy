/** Types shared by the kernel, runtime and shell models. */
module Common {

  datatype Option<+T> = None | Some(value: T)

  /** The errors the modelled operations return (a subset of the system's error codes). */
  datatype Error =
    | BadAlignment
    | BadAddress
    | OutOfMemory
    | MemoryInUse
    | ServerNotFound
    | ProcessNotFound
    | ServerQueueFull
    | ThreadNotAvailable
    | AccessDenied
    | Again
    | DoubleFree
    | InvalidArguments
    | InvalidSyscall

  datatype Result<+T> = Ok(value: T) | Err(error: Error)

  /** A thread, named by its process and its index within the process. */
  datatype Id = Id(pid: nat, tid: nat)
}
