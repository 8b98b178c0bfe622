/** Values shared by every backend module: bytes, optional values, and the
    Python exceptions the backends raise, made explicit as an outcome type. */
module Common {

  type Byte = x: int | 0 <= x < 256

  /** A Python `bytes` object. */
  type Bytes = seq<Byte>

  datatype Option<+T> = None | Some(value: T)

  /** The exception classes that the backend code raises, catches or lets pass,
      all of them subclasses of `Exception`; `OtherException` is any other
      such subclass. `SocketTimeout` is `socket.timeout`, itself a subclass
      of `OSError`. */
  datatype Exc =
    | NotImplementedError
    | ValueError
    | OSError
    | SocketTimeout
    | KeyError
    | UnboundLocalError
    | TimeoutTimerExpired
    | OtherException(name: string)

  /** True for the exceptions an `except OSError` clause catches. */
  predicate IsOSError(e: Exc) {
    e == OSError || e == SocketTimeout
  }

  /** The result of a Python call: either it returned a value or it raised. */
  datatype Outcome<+T> = Returned(value: T) | Raised(exc: Exc)

  /** An opened backend object, as a discovery record could carry it. */
  datatype Instance = Instance(handle: nat)

  /** One entry `{'identifier': ..., 'instance': ...}` of a device listing. */
  datatype DeviceRecord = DeviceRecord(identifier: string, instance: Option<Instance>)
}
