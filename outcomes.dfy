/** Values shared by every component: optional values (the emulator's "handles"),
    the emulated errors the core can raise, and the tagged outcome of an operation. */
module Outcomes {

  /** An empty or filled handle (MethodHandle, KlassHandle, a nullable reference). */
  datatype Option<T> = None | Some(value: T)

  /** The emulated throwables the core constructs through the virtual machine. */
  datatype VmError =
    | IncompatibleClassChangeError
    | NoSuchMethodError
    | NoSuchFieldError
    | NullPointerException

  /** A Java runtime exception raised by the emulator's own code (not an emulated one). */
  datatype HostFault = NullDereference | IndexOutOfBounds

  /** How one operation of the core ends:
      - Ok: it returned normally with a value;
      - Throw: it threw an emulated throwable of the given kind, with an optional message;
      - Unsupported: it threw the host ExecutionException of an unimplemented path;
      - Fault: the emulator's own code dereferenced null or indexed out of range. */
  datatype Outcome<T> =
    | Ok(value: T)
    | Throw(error: VmError, message: Option<string>)
    | Unsupported(reason: string)
    | Fault(fault: HostFault)
  {
    /** True when the operation did not return normally. */
    predicate IsFailure() {
      !Ok?
    }

    /** The same failure, at another value type. */
    function PropagateFailure<U>(): (r: Outcome<U>)
      requires IsFailure()
      ensures r.IsFailure()
    {
      match this
      case Throw(e, m) => Throw(e, m)
      case Unsupported(s) => Unsupported(s)
      case Fault(f) => Fault(f)
    }
  }
}
