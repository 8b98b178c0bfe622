# Brother QL network backend and printing helpers, in Dafny

This project models the network side of the `brother_ql` label-printer driver:

- **The network backend.** It parses a device specifier such as `tcp://192.168.1.20:9100`, opens a TCP connection to the printer and keeps the socket timeout in step with the read strategy. Sends go over the stream with a ten-second timeout. Reads query the printer's status over SNMP and retry once under the `try_twice` strategy. It also discovers printers with an SNMP broadcast, collecting responders in a module-level set until a timer callback ends the scan.
- **The generic backend template.** `write`, `read`, `dispose` and `__del__` are methods every backend inherits. `dispose` swallows every `Exception` the backend's own `_dispose` raises.
- **The printing helpers.** `send` chooses a backend, writes the instructions and then polls the printer's status until it reports that it printed and is ready for the next job, reports an error, or the polling budget runs out. `status` sends one status request. `discover` lists devices.

Sockets, SNMP, the clock and the imported helper functions appear as parameters, so each operation is proved for every way they can behave:

- `connect`, `sendall`, the shutdown, each SNMP status query and each `read` are outcomes passed in.
- Python exceptions are the `Raised` case of an `Outcome` datatype.
- The SNMP broadcast is a sequence of dispatcher events.
- `guess_backend`, `backend_factory` and `interpret_response` are functions passed in.

Files:

- `common.dfy`: bytes, `Option`, the exception kinds, `Outcome`, the device record.
- `decimal.dfy`: `str(int)` and `int(str)` for the decimal port, with their round trip.
- `network.py` is split across two files:
  - `network.dfy`: the OID table, specifier parsing, construction, the `NetworkBackend` class with its write, read and dispose paths, and the read retry policy.
  - `discovery.dfy`: discovery, with the module-level `foundPrinters` and `startedAt` as the state of a `DiscoveryState` object.
- `generic.dfy`: the base backend's stubs and the `dispose` template. The template methods are modelled on `NetworkBackend`, which inherits them.
- `helpers.dfy`: backend selection, `send` with its polling loop proved against a state-machine function, `status` and `discover`.

Behaviours of the code worth knowing, all modelled as written:

- `str.partition` splits at the first `:`, so `ParseSpecifier` takes the host up to the first `:`.
- `int()` of the port text follows Python 3.12, the version the f-strings in `helpers.py` need. It refuses a text of more than 4300 digits with `ValueError`.
- A failed socket creation or connect raises `ValueError`, but only for the `OSError` family; other exceptions from the socket calls pass through unchanged.
- `_read` never touches the socket, because it queries SNMP. So a read after `dispose` still queries, while a write after `dispose` fails (`WriteAfterDispose`).
- `dispose` swallows the failure of a second `_dispose`, so a second `dispose` returns normally (`DisposeTwice`).
- When `sendall` raises, the timeout stays at ten seconds, because the read timeout is restored only on success.

## Model

| member | source | states |
|---|---|---|
| Decimal.NatToString | brother_ql/backends/network.py:158 | the decimal text of a port is non-empty, all digits, and longer than one digit exactly for numbers of 10 and more |
| Decimal.ParseInt | brother_ql/backends/network.py:102 | `int()` of a text succeeds only when the text holds a digit |
| Decimal.ParseIntOfDigits | brother_ql/backends/network.py:102 | `int()` of a non-empty text of plain digits of at most 4300 characters, leading zeros included, is the value of those digits |
| Decimal.ParseIntRefusesLongDigits | brother_ql/backends/network.py:102 | `int()` refuses a text of more than 4300 digits with `ValueError` |
| Decimal.ParseIntRefusesForeign | brother_ql/backends/network.py:102 | `int()` refuses any text holding a character other than a digit, whitespace, a sign or an underscore |
| Decimal.ParseIntOfNatToString | brother_ql/backends/network.py:102 | `int(str(n)) == n`: a port written in decimal, within the digit limit, reads back as itself |
| Decimal.NatToStringLength | brother_ql/backends/network.py:158 | numbers below 10^k have at most k digits, so a UDP port's text has at most five |
| Decimal.NatToStringInjective | brother_ql/backends/network.py:158 | distinct ports have distinct decimal texts |
| Network.Partition | brother_ql/backends/network.py:100 | `str.partition`: the three parts concatenate to the input, the head holds no separator, and the separator is missing only when the input has none, in which case the tail is empty |
| Network.ParseSpecifier | brother_ql/backends/network.py:97-104 | parsing raises only `ValueError`; the host has no `:` and is a prefix of the specifier without `tcp://`; without a port, or with an empty one, the port is 9100 |
| Network.SnmpOidsTable | brother_ql/backends/network.py:27-35 | the OID table has seven entries; its `snmp_get_status` entry is the one a read queries; the MAC and netmask entries name the same identifier, which differs from the IP entry |
| Network.ParseSpecifierWithPort | brother_ql/backends/network.py:97-104 | `[tcp://]host:port` with a colon-free host and a port of at most 4300 digits parses to exactly that host and port, with or without the scheme |
| Network.ParseSpecifierSplit | brother_ql/backends/network.py:100-104 | the host ends at the first `:`; the port is `int()` of the rest, 9100 when the rest is empty, and `ValueError` when `int()` refuses it |
| Network.ParseSpecifierDefaultPort | brother_ql/backends/network.py:98-104 | `[tcp://]host` and `[tcp://]host:` name port 9100 |
| Network.Establish | brother_ql/backends/network.py:88-116 | a non-string specifier raises `NotImplementedError`. A port text `int()` refuses raises `ValueError`. A connect failure from the `OSError` family raises `ValueError` and any other passes through, so no `OSError` escapes. Construction succeeds exactly when the specifier is a string that parses and the connection succeeds, and then connects to the parsed endpoint |
| Network.TimeoutFor | brother_ql/backends/network.py:111-114 | the socket timeout is `read_timeout` for the strategies a read accepts and 0 for every other |
| Network.EstablishReportsConnectFailure | brother_ql/backends/network.py:105-110 | a failed socket creation or connect from the `OSError` family raises `ValueError`; other exceptions pass through |
| Network.Open | brother_ql/backends/network.py:88-116 | construction yields a fresh connected object exactly when `Establish` succeeds, with host and peer from the specifier, strategy `socket_timeout`, read timeout 0.01 and the socket timeout set to it; otherwise it yields no object and raises `Establish`'s exception |
| Network.NetworkBackend.Connected | brother_ql/backends/network.py:94-96 | the constructed object's socket timeout is `read_timeout` (0.01) under the default `socket_timeout` strategy, as `TimeoutFor` gives for that strategy, and nothing has been sent yet |
| Network.Tries | brother_ql/backends/network.py:124-128 | the try count is 1 for `socket_timeout`, 2 for `try_twice`, and undefined for every other strategy |
| Network.Answer | brother_ql/backends/network.py:132-135 | a query answers with its status binding; an answer lacking it raises `KeyError`; a raising query passes its exception on |
| Network.QueryFrom | brother_ql/backends/network.py:129-138 | the loop makes at least one more query when tries remain and never more than the tries; stopping before the last try means that query did not time out and its answer is the result |
| Network.ReadSpec | brother_ql/backends/network.py:123-140 | a read under an unknown strategy raises `NotImplementedError` without querying; under a known one it makes between one query and the strategy's try count |
| Network.QueryFromFirstAnswer | brother_ql/backends/network.py:129-138 | the loop makes at least one more query and at most the remaining tries; every query before the last it made timed out; the result is the answer of the first query that did not time out, or `b''` after all tries timed out |
| Network.ReadSpecRetryPolicy | brother_ql/backends/network.py:123-140 | a read makes one query under `socket_timeout`, at most two under `try_twice`, stops at the first query that does not time out and returns its status value (`KeyError` if absent) or re-raises its exception, returns `b''` when all time out, and raises `NotImplementedError` without querying under any other strategy |
| Network.NetworkBackend.ReadHook | brother_ql/backends/network.py:123-140 | the `for` loop returns exactly the result and query count of the retry policy `ReadSpec` |
| Network.NetworkBackend.Read | brother_ql/backends/generic.py:33-40 | `read` returns exactly what `_read` returns, empty bytes included, and re-raises the same exception |
| Network.NetworkBackend.WriteHook | brother_ql/backends/network.py:118-121 | on an open socket the data is sent once with timeout 10 and the timeout is then back at `read_timeout`; a failing `sendall` propagates and leaves the timeout at 10; a closed socket raises `OSError` and nothing changes |
| Network.NetworkBackend.Write | brother_ql/backends/generic.py:29-31 | `write` hands exactly `data` to `_write`, with the same outcome and new state |
| Network.NetworkBackend.DisposeHook | brother_ql/backends/network.py:142-144 | `_dispose` closes an open socket; on a closed socket, or when the shutdown fails, it raises `OSError` |
| Network.NetworkBackend.Dispose | brother_ql/backends/generic.py:42-46 | `dispose` always returns normally, whatever `_dispose` does; the socket is closed afterwards unless the shutdown failed |
| Network.NetworkBackend.Del | brother_ql/backends/generic.py:51-52 | `__del__` has the effect and outcome of `dispose` |
| Network.DisposeTwice | brother_ql/backends/generic.py:42-46 | calling `dispose` twice never raises, although `_dispose` on the closed socket does |
| Network.WriteAfterDispose | brother_ql/backends/network.py:118-121 | a write after `dispose` raises `OSError` and sends nothing |
| NetworkDiscovery.EndpointString | brother_ql/backends/network.py:158 | the entry is the IP, a `:`, then the port's decimal digits, at most five of them |
| NetworkDiscovery.TimerStaysExpired | brother_ql/backends/network.py:151 | the timer test never fires within five seconds of the start, and stays fired for every later reading |
| NetworkDiscovery.EndpointStringInjective | brother_ql/backends/network.py:155-159 | two responders share a `"ip:port"` entry only when they are the same address, so the set deduplicates exactly the repeated endpoints |
| NetworkDiscovery.DiscoveredIdentifierParses | brother_ql/backends/network.py:81 | a discovered identifier `tcp://ip:port`, with an IPv4 address, is parsed back by the backend constructor into the responder's own address and port |
| NetworkDiscovery.Dispatch | brother_ql/backends/network.py:75-78 | a scan never removes entries from the set it starts with |
| NetworkDiscovery.StopAt | brother_ql/backends/network.py:149-152 | the broadcast stops at the first library exception or late timer tick, and no earlier event ends it |
| NetworkDiscovery.DispatchCollects | brother_ql/backends/network.py:69-78 | a scan adds exactly the responders seen before the event that ends it; it ends with `TimeoutTimerExpired` at the first late tick, with the library's exception, or normally |
| NetworkDiscovery.NoResponseNothingFound | brother_ql/backends/network.py:69-78 | a scan with no responses finds nothing, starting from the cleared set |
| NetworkDiscovery.RecordInjective | brother_ql/backends/network.py:81 | distinct entries give distinct device records |
| NetworkDiscovery.ToDeviceRecords | brother_ql/backends/network.py:81 | the listing has one record `{'identifier': 'tcp://' + entry, 'instance': None}` per set element, no other record and no duplicates |
| NetworkDiscovery.DiscoveryState.constructor | brother_ql/backends/network.py:39-41 | the module starts with an empty `foundPrinters` and `startedAt` 0 |
| NetworkDiscovery.DiscoveryState.CbRecvFun | brother_ql/backends/network.py:155-159 | the receive callback adds exactly the `"ip:port"` entry and returns the message unchanged |
| NetworkDiscovery.DiscoveryState.CbTimerFun | brother_ql/backends/network.py:149-152 | the timer callback raises `TimeoutTimerExpired` exactly when more than 5 seconds separate `timeNow` from `startedAt` |
| NetworkDiscovery.DiscoveryState.Broadcast | brother_ql/backends/network.py:75-76 | the dispatcher loop over the callbacks leaves the set and the outcome that `Dispatch` gives |
| NetworkDiscovery.DiscoveryState.Collect | brother_ql/backends/network.py:75-81 | `TimeoutTimerExpired` is swallowed and any other exception propagates; the listing has one distinct record per entry the scan left |
| NetworkDiscovery.DiscoveryState.ListAvailableDevicesAsWritten | brother_ql/backends/network.py:43-81 | as written: the set is cleared, the module `startedAt` is not changed, and the scan runs against it |
| NetworkDiscovery.DiscoveryState.ListAvailableDevices | brother_ql/backends/network.py:43-81 | with the start time stored: the set is cleared, the scan runs against `now`, and the listing is the one `ScanEnded` describes |
| NetworkDiscovery.FirstTickEndsScanAsWritten | brother_ql/backends/network.py:72 | as written, a printer that answers after the first timer tick is lost; with the start time stored it is found |
| NetworkDiscovery.AsWrittenStopsAtFirstTick | brother_ql/backends/network.py:149-152 | against a start time of 0, any scan ends at its first timer tick once the clock reads more than 5 |
| Generic.ListAvailableDevices | brother_ql/backends/generic.py:5-9 | the module-level listing stub always raises `NotImplementedError` |
| Generic.Construct | brother_ql/backends/generic.py:14-21 | the base constructor always raises `NotImplementedError` |
| Generic.DisposeHook | brother_ql/backends/generic.py:48-49 | the base `_dispose` always raises `NotImplementedError` |
| Generic.ListAvailableDevicesMethod | brother_ql/backends/generic.py:54-55 | the base listing method always raises `NotImplementedError` |
| Generic.Dispose | brother_ql/backends/generic.py:42-46 | the `dispose` template returns normally whatever `_dispose`'s outcome |
| Generic.BaseDisposeReturns | brother_ql/backends/generic.py:42-49 | even on the base class, whose `_dispose` raises, `dispose` returns normally |
| Helpers.SelectBackend | brother_ql/backends/helpers.py:44-52 | `send` uses a truthy backend name as given; otherwise it uses the guessed backend, or `"pyusb"` when the guess raises anything |
| Helpers.SelectStatusBackend | brother_ql/backends/helpers.py:118-126 | `status` falls back to `"pyusb"` only on a `ValueError` from the guess; any other exception propagates unchanged |
| Helpers.SelectionsAgree | brother_ql/backends/helpers.py:118-126 | where `status`'s selection does not raise, it picks the backend `send` would |
| Helpers.Step | brother_ql/backends/helpers.py:72-93 | one pass fails exactly on an exception from `read` or a parse exception other than `ValueError`, and then raises that same exception. Otherwise it keeps `instructions_sent`. A parsed response is recorded as the printer state. With errors, it sets outcome 'error' and breaks. Without errors: "Printing completed" sets `did_print` and outcome 'printed'; "Phase change" with "Waiting to receive" sets `ready_for_next_job`; each flag and the outcome is otherwise unchanged; and the pass breaks exactly when both flags are set |
| Helpers.Run | brother_ql/backends/helpers.py:71-93 | the loop keeps `instructions_sent`; it breaks only with outcome 'error' or with both flags set; it fails only with the exception of a `read` that raised, or with the non-`ValueError` parse exception of one that returned data |
| Helpers.PrintedThenReady | brother_ql/backends/helpers.py:87-93 | after the write, a "Printing completed" response followed by "Phase change"/"Waiting to receive" ends the loop with outcome 'printed', both flags set and the last response recorded |
| Helpers.Send | brother_ql/backends/helpers.py:27-104 | opens the selected backend, then writes exactly the instructions. A failure of either propagates. When not blocking, or on the `network` backend, it returns the 'sent' status with both flags false. Otherwise it returns the outcome of the polling state machine `Run` from the 'sent' status and makes one `read` per poll |
| Helpers.RunSplit | brother_ql/backends/helpers.py:71-93 | polling with a longer budget continues from where the shorter one stopped, and changes nothing once the loop was left |
| Helpers.RunKeepsFlags | brother_ql/backends/helpers.py:87-91 | `did_print` and `ready_for_next_job` are never reset to False |
| Helpers.RunEnds | brother_ql/backends/helpers.py:81-93 | the loop is left only on a response with errors, which is recorded with outcome 'error', or once both flags are set, with outcome 'printed'; while it runs, the outcome is 'sent' or 'printed', 'printed' exactly when `did_print` is set, and never both flags |
| Helpers.SendStatusConsistent | brother_ql/backends/helpers.py:37-93 | a blocking `send` that returns has sent the instructions and has an outcome other than 'unknown'; 'printed' implies `did_print`; both flags imply 'printed' |
| Helpers.StepSkips | brother_ql/backends/helpers.py:72-80 | empty data and responses that fail to parse with `ValueError` leave the status unchanged and the loop goes on |
| Helpers.ErrorsEndPolling | brother_ql/backends/helpers.py:81-86 | a response with errors is recorded as the printer state, sets outcome 'error' and ends the loop before its status type is examined |
| Helpers.Status | brother_ql/backends/helpers.py:107-151 | a selection exception propagates before any call, and the `network` backend raises `NotImplementedError` before any call. Otherwise a failing open, write or read raises its own exception after the calls made so far. A parse exception other than `ValueError` propagates after open, write and read. When all succeed and the answer parses, `status` returns exactly that parse. The only bytes written are `1B 69 53`, and a returned result always comes from open, write and one read |
| Helpers.StatusUnparseable | brother_ql/backends/helpers.py:138-143 | a status answer that fails to parse surfaces as `UnboundLocalError`, not as the parser's `ValueError` |
| Helpers.Discover | brother_ql/backends/helpers.py:17-25 | `discover` lists the named backend's devices, `"pyusb"`'s when no name is given |

## Left out

- SNMP message and PDU construction, and the bodies of `quicksnmp.broadcastSNMPReq` and `quicksnmp.get`: that library is not part of this model. The broadcast is a sequence of dispatcher events and each status query is an outcome passed in.
- The cap of ten responses (`maxNumberOfResponses`) is handed to the broadcast library, which enforces it; the model keeps the constant but cannot check the cap.
- Real socket I/O:
  - socket creation and the `TCP_NODELAY` option are folded into one connect outcome;
  - `sendall` is one outcome, and partial sends are not modelled;
  - shutdown and close are one outcome.
  The socket is an open flag, a timeout and a log of what was sent.
- Wall-clock time and sleeping:
  - `send`'s ten-second budget is the finite sequence of `read` results it gets through;
  - the 5 ms sleep is not modelled;
  - discovery's clock readings are the `real` values of timer ticks and the `now` passed to the listing.
- `interpret_response`, `guess_backend` and `backend_factory` are not part of this model; they are functions passed in. `Send` and `Status` fold the factory lookup and the backend constructor into one `open` outcome.
- Logging throughout, including the log lines at the end of `status`. Those lines read fields such as `series_code` that `PrinterResponse` does not carry, so a `KeyError` there is not modelled.
- Network.NetworkBackend.ReadHook: `length` is accepted and ignored, as in the code; the base `_read` and `_write` that use `read_dev` and `write_dev` belong to the device-file backends and are not modelled.
- Decimal.ParseInt: accepts only ASCII digits and ASCII whitespace; Unicode digits and Unicode spaces are not modelled. The digit limit is Python 3.12's default of 4300; a limit changed with `sys.set_int_max_str_digits` or `PYTHONINTMAXSTRDIGITS` is not modelled.
- The exception kinds of `Exc` stand for `Exception` subclasses only. `BaseException`s such as `KeyboardInterrupt` and `SystemExit` are not modelled. The `except Exception` of `dispose` would let them through, while the bare `except:` of `send`'s backend guess would catch them.
- Concurrency around the module-level `foundPrinters` and `startedAt`: the model is sequential.
- `brother_ql/image_trafos.py` is not part of this model.

## Findings

| source | as written | input that shows it | evidently intended | confidence | as-written member | corrected member |
|---|---|---|---|---|---|---|
| brother_ql/backends/network.py:72 | `startedAt = time()` inside `list_available_devices` binds a local variable, so `cbTimerFun` keeps comparing against the module's `startedAt`, which stays 0 | any scan whose first timer tick reads a clock past 5 seconds, e.g. a tick at `time()` followed by one printer's response: as written the scan ends at the tick and the printer is not listed | the scan waits 5 seconds from its start, so a printer answering within them is listed | not executed | NetworkDiscovery.DiscoveryState.ListAvailableDevicesAsWritten | NetworkDiscovery.DiscoveryState.ListAvailableDevices |
