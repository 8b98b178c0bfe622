/** The base backend class and the module-level listing stub. The base class
    only fixes the template: a backend overrides the constructor,
    `_dispose` and the listing; the inherited `write`, `read`, `dispose` and
    `__del__` are modelled with the network backend that inherits them. */
module Generic {
  import opened Common

  /** The module-level `list_available_devices` of the base module. */
  function ListAvailableDevices(umsWarning: bool): (r: Outcome<seq<DeviceRecord>>)
    ensures r.Raised? && r.exc == NotImplementedError
  {
    Raised(NotImplementedError)
  }

  /** `BrotherQLBackendGeneric(device_specifier)`: clears both device
      handles, then refuses to build a base object. */
  function Construct(deviceSpecifier: string): (r: Outcome<()>)
    ensures r.Raised? && r.exc == NotImplementedError
  {
    Raised(NotImplementedError)
  }

  /** The base `_dispose`. */
  function DisposeHook(): (r: Outcome<()>)
    ensures r.Raised? && r.exc == NotImplementedError
  {
    Raised(NotImplementedError)
  }

  /** The base `list_available_devices` method. */
  function ListAvailableDevicesMethod(): (r: Outcome<seq<DeviceRecord>>)
    ensures r.Raised? && r.exc == NotImplementedError
  {
    Raised(NotImplementedError)
  }

  /** What the template `dispose` makes of a `_dispose` outcome: it swallows
      every exception. */
  function Dispose(hook: Outcome<()>): (r: Outcome<()>)
    ensures r == Returned(())
  {
    Returned(())
  }

  /** Even on the base class, whose `_dispose` always raises, `dispose`
      returns normally. */
  lemma BaseDisposeReturns()
    ensures DisposeHook().Raised? && Dispose(DisposeHook()) == Returned(())
  {
  }
}
