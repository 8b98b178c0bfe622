/** Discovery of network printers: one SNMP broadcast whose responders are
    collected, as `host:port` strings, in the module-level set
    `foundPrinters`, until a timer callback ends the scan.

    The broadcast itself and its dispatcher loop belong to a helper library
    that is not part of this model; here the dispatcher is a sequence of
    events, each one a call of the receive callback, a call of the timer
    callback, or an exception the library raises on its own. */
module NetworkDiscovery {
  import opened Common
  import opened Decimal
  import opened Network

  /** Seconds a scan waits for responses. */
  const MaxWaitForResponses: real := 5.0

  /** The response cap handed to the broadcast helper, which enforces it. */
  const MaxNumberOfResponses: nat := 10

  /** A UDP port number. */
  type Port = p: nat | p < 0x1_0000

  /** The source address of one UDP response. */
  datatype UdpAddress = UdpAddress(ip: string, port: Port)

  /** One thing the broadcast dispatcher does. */
  datatype BroadcastEvent =
    | Response(address: UdpAddress, wholeMsg: Bytes)
    | Tick(timeNow: real)
    | Abort(exc: Exc)

  /** The set of responders a scan leaves behind, and how the broadcast
      call ended. */
  datatype ScanResult = ScanResult(found: set<string>, outcome: Outcome<()>)

  /** The entry `cbRecvFun` records for a responder: `"{ip}:{port}"`. */
  function EndpointString(address: UdpAddress): (entry: string)
    ensures |entry| > |address.ip| + 1 && entry[..|address.ip|] == address.ip && entry[|address.ip|] == ':'
    ensures AllDigits(entry[|address.ip| + 1..]) && |entry| <= |address.ip| + 6
  {
    var entry := address.ip + ":" + NatToString(address.port);
    NatToStringLength(address.port, 5);
    assert Pow10(5) == 100000;
    assert entry[|address.ip| + 1..] == NatToString(address.port);
    entry
  }

  /** Two responders share an entry only when they are the same address:
      the port's digits hold no `:`, so the last `:` separates the two. */
  lemma EndpointStringInjective(a: UdpAddress, b: UdpAddress)
    requires EndpointString(a) == EndpointString(b)
    ensures a == b
  {
    var s := EndpointString(a);
    var ta, tb := NatToString(a.port), NatToString(b.port);
    assert |ta| == |tb| by {
      assert s[|s| - |ta| - 1] == ':';
      assert s[|s| - |tb| - 1] == ':';
    }
    assert ta == s[|s| - |ta|..] == tb;
    NatToStringInjective(a.port, b.port);
    assert a.ip == s[..|a.ip|] == b.ip;
  }

  /** A discovered identifier, `"tcp://" + entry`, is parsed back by the
      backend constructor into the responder's own address when its IP has
      no `:` (an IPv4 address). */
  lemma DiscoveredIdentifierParses(address: UdpAddress)
    requires ':' !in address.ip
    ensures ParseSpecifier(Scheme + EndpointString(address)) == Returned(Endpoint(address.ip, address.port))
  {
    IdentifierText(address);
    PortTextShort(address.port);
    ParseSpecifierWithPort(address.ip, address.port, true);
  }

  /** The identifier of a discovered printer, as a scheme-prefixed
      `host:port` specifier. */
  lemma IdentifierText(address: UdpAddress)
    ensures Scheme + EndpointString(address)
            == (if true then Scheme else "") + address.ip + ":" + NatToString(address.port)
  {
    var text := NatToString(address.port);
    assert Scheme + address.ip + ":" + text == Scheme + (address.ip + ":" + text);
  }

  /** A port's decimal text is within `int()`'s digit limit. */
  lemma PortTextShort(port: Port)
    ensures |NatToString(port)| <= MaxStrDigits
  {
    NatToStringLength(port, 5);
    assert Pow10(5) == 100000;
  }

  /** The test `cbTimerFun` makes. */
  predicate TimerExpired(timeNow: real, startedAt: real) {
    timeNow - startedAt > MaxWaitForResponses
  }

  /** The timer never fires within five seconds of the start, and once it
      has fired, it fires at every later reading. */
  lemma TimerStaysExpired(startedAt: real, earlier: real, later: real)
    ensures earlier <= startedAt + MaxWaitForResponses ==> !TimerExpired(earlier, startedAt)
    ensures TimerExpired(earlier, startedAt) && earlier <= later ==> TimerExpired(later, startedAt)
  {
  }

  /** The broadcast call, with `foundPrinters` holding `found` at the start
      and `cbTimerFun` reading `startedAt`. */
  function Dispatch(events: seq<BroadcastEvent>, startedAt: real, found: set<string>): (r: ScanResult)
    ensures found <= r.found
  {
    if events == [] then ScanResult(found, Returned(()))
    else
      match events[0]
      case Response(address, _) => Dispatch(events[1..], startedAt, found + {EndpointString(address)})
      case Tick(timeNow) =>
        if TimerExpired(timeNow, startedAt) then ScanResult(found, Raised(TimeoutTimerExpired))
        else Dispatch(events[1..], startedAt, found)
      case Abort(e) => ScanResult(found, Raised(e))
  }

  /** Whether an event ends the broadcast call. */
  predicate Ends(event: BroadcastEvent, startedAt: real) {
    event.Abort? || (event.Tick? && TimerExpired(event.timeNow, startedAt))
  }

  /** The number of events the broadcast call gets through before the one
      that ends it (all of them when none does). */
  function StopAt(events: seq<BroadcastEvent>, startedAt: real): (k: nat)
    ensures k <= |events|
    ensures k < |events| ==> Ends(events[k], startedAt)
    ensures forall i :: 0 <= i < k ==> !Ends(events[i], startedAt)
  {
    if events == [] then 0
    else if Ends(events[0], startedAt) then 0
    else 1 + StopAt(events[1..], startedAt)
  }

  /** The entries of every responder among the events. */
  function Responders(events: seq<BroadcastEvent>): set<string> {
    if events == [] then {}
    else (if events[0].Response? then {EndpointString(events[0].address)} else {}) + Responders(events[1..])
  }

  /** A scan records exactly the responders that answered before the event
      that ended it, each once; it ends with `TimeoutTimerExpired` at the
      first late tick, with the library's own exception, or normally. */
  lemma {:induction false} DispatchCollects(events: seq<BroadcastEvent>, startedAt: real, found: set<string>)
    ensures var k := StopAt(events, startedAt);
            && Dispatch(events, startedAt, found).found == found + Responders(events[..k])
            && Dispatch(events, startedAt, found).outcome
               == if k == |events| then Returned(())
                  else if events[k].Abort? then Raised(events[k].exc)
                  else Raised(TimeoutTimerExpired)
  {
    if events != [] && !Ends(events[0], startedAt) {
      var next := if events[0].Response? then found + {EndpointString(events[0].address)} else found;
      DispatchCollects(events[1..], startedAt, next);
      var k := StopAt(events, startedAt);
      assert events[..k][1..] == events[1..][..k - 1];
    }
  }

  /** With no responder before the end of the scan, nothing is found. */
  lemma NoResponseNothingFound(events: seq<BroadcastEvent>, startedAt: real)
    requires forall i :: 0 <= i < |events| ==> !events[i].Response?
    ensures Dispatch(events, startedAt, {}).found == {}
  {
    DispatchCollects(events, startedAt, {});
    NoResponders(events[..StopAt(events, startedAt)]);
  }

  lemma {:induction false} NoResponders(events: seq<BroadcastEvent>)
    requires forall i :: 0 <= i < |events| ==> !events[i].Response?
    ensures Responders(events) == {}
  {
    if events != [] {
      NoResponders(events[1..]);
    }
  }

  /** The record listing one entry. */
  function Record(entry: string): DeviceRecord {
    DeviceRecord(Scheme + entry, None)
  }

  ghost function Records(found: set<string>): set<DeviceRecord> {
    set entry | entry in found :: Record(entry)
  }

  lemma RecordInjective(p: string, q: string)
    requires Record(p) == Record(q)
    ensures p == q
  {
    assert p == (Scheme + p)[|Scheme|..];
  }

  /** `[{'identifier': 'tcp://' + printer, 'instance': None} for printer in
      foundPrinters]`: one record per entry, in the set's iteration order. */
  method ToDeviceRecords(found: set<string>) returns (devices: seq<DeviceRecord>)
    ensures |devices| == |found|
    ensures forall d :: d in devices <==> d in Records(found)
    ensures forall i, j :: 0 <= i < j < |devices| ==> devices[i] != devices[j]
  {
    var rest := found;
    devices := [];
    while rest != {}
      invariant rest <= found
      invariant |devices| + |rest| == |found|
      invariant forall d :: d in devices <==> d in Records(found - rest)
      invariant forall i, j :: 0 <= i < j < |devices| ==> devices[i] != devices[j]
      decreases |rest|
    {
      var entry :| entry in rest;
      if Record(entry) in devices {
        var earlier :| earlier in found - rest && Record(earlier) == Record(entry);
        RecordInjective(earlier, entry);
        assert false;
      }
      devices := devices + [Record(entry)];
      rest := rest - {entry};
    }
  }

  /** The module-level state of the discovery code: `foundPrinters` and the
      `startedAt` that `cbTimerFun` reads. */
  class DiscoveryState {
    var foundPrinters: set<string>
    var startedAt: real

    /** The state when the module is loaded. */
    constructor ()
      ensures foundPrinters == {} && startedAt == 0.0
    {
      foundPrinters := {};
      startedAt := 0.0;
    }

    /** `cbRecvFun`: records the responder and passes the message on. */
    method CbRecvFun(transportAddress: UdpAddress, wholeMsg: Bytes) returns (r: Bytes)
      modifies this`foundPrinters
      ensures foundPrinters == old(foundPrinters) + {EndpointString(transportAddress)}
      ensures r == wholeMsg
    {
      foundPrinters := foundPrinters + {EndpointString(transportAddress)};
      r := wholeMsg;
    }

    /** `cbTimerFun`: raises `TimeoutTimerExpired` once more than five
        seconds separate `timeNow` from `startedAt`. */
    function CbTimerFun(timeNow: real): (r: Outcome<()>)
      reads this
      ensures r.Raised? <==> timeNow - startedAt > MaxWaitForResponses
      ensures r.Raised? ==> r.exc == TimeoutTimerExpired
    {
      if TimerExpired(timeNow, startedAt) then Raised(TimeoutTimerExpired) else Returned(())
    }

    /** The broadcast call: the dispatcher runs the events through the two
        callbacks until one raises or the library raises itself. */
    method Broadcast(events: seq<BroadcastEvent>) returns (outcome: Outcome<()>)
      modifies this`foundPrinters
      ensures foundPrinters == Dispatch(events, startedAt, old(foundPrinters)).found
      ensures outcome == Dispatch(events, startedAt, old(foundPrinters)).outcome
    {
      var i := 0;
      while i < |events|
        invariant 0 <= i <= |events|
        invariant Dispatch(events[i..], startedAt, foundPrinters) == Dispatch(events, startedAt, old(foundPrinters))
        decreases |events| - i
      {
        assert events[i..][1..] == events[i + 1..];
        match events[i] {
          case Response(address, wholeMsg) =>
            var passed := CbRecvFun(address, wholeMsg);
          case Tick(timeNow) =>
            var timer := CbTimerFun(timeNow);
            if timer.Raised? {
              return timer;
            }
          case Abort(e) =>
            return Raised(e);
        }
        i := i + 1;
      }
      outcome := Returned(());
    }

    /** `list_available_devices` as written: the start time is bound to a
        local variable, so the timer keeps comparing against the module's
        `startedAt`, which nothing ever sets. */
    method ListAvailableDevicesAsWritten(now: real, events: seq<BroadcastEvent>) returns (r: Outcome<seq<DeviceRecord>>)
      modifies this`foundPrinters
      ensures startedAt == old(startedAt)
      ensures ScanEnded(r, Dispatch(events, startedAt, {}), foundPrinters)
    {
      foundPrinters := {};
      var localStartedAt := now;
      r := Collect(events);
    }

    /** `list_available_devices` with the start time stored where the timer
        reads it: the scan lasts five seconds from `now`. */
    method ListAvailableDevices(now: real, events: seq<BroadcastEvent>) returns (r: Outcome<seq<DeviceRecord>>)
      modifies this`foundPrinters, this`startedAt
      ensures startedAt == now
      ensures ScanEnded(r, Dispatch(events, now, {}), foundPrinters)
    {
      foundPrinters := {};
      startedAt := now;
      r := Collect(events);
    }

    /** The broadcast with `TimeoutTimerExpired` caught, then the listing. */
    method Collect(events: seq<BroadcastEvent>) returns (r: Outcome<seq<DeviceRecord>>)
      modifies this`foundPrinters
      ensures ScanEnded(r, Dispatch(events, startedAt, old(foundPrinters)), foundPrinters)
    {
      var outcome := Broadcast(events);
      if outcome.Raised? && outcome.exc != TimeoutTimerExpired {
        return Raised(outcome.exc);
      }
      var devices := ToDeviceRecords(foundPrinters);
      r := Returned(devices);
    }
  }

  /** How a listing ends after a scan: the set left behind is the scan's,
      `TimeoutTimerExpired` is swallowed, any other exception propagates,
      and a listing holds one distinct record per entry. */
  ghost predicate ScanEnded(r: Outcome<seq<DeviceRecord>>, scan: ScanResult, foundPrinters: set<string>) {
    && foundPrinters == scan.found
    && (r.Raised? <==> scan.outcome.Raised? && scan.outcome.exc != TimeoutTimerExpired)
    && (r.Raised? ==> r.exc == scan.outcome.exc)
    && (r.Returned? ==>
          && |r.value| == |foundPrinters|
          && (forall d :: d in r.value <==> d in Records(foundPrinters))
          && (forall i, j :: 0 <= i < j < |r.value| ==> r.value[i] != r.value[j]))
  }

  /** Against the module's `startedAt` of 0, any real clock reading is more
      than five seconds late, so the first tick ends the scan and a printer
      answering after it is lost; with the start time stored, it is found. */
  lemma FirstTickEndsScanAsWritten(now: real, address: UdpAddress, wholeMsg: Bytes)
    requires now > MaxWaitForResponses
    ensures Dispatch([Tick(now), Response(address, wholeMsg)], 0.0, {})
            == ScanResult({}, Raised(TimeoutTimerExpired))
    ensures Dispatch([Tick(now), Response(address, wholeMsg)], now, {})
            == ScanResult({EndpointString(address)}, Returned(()))
  {
    var events := [Tick(now), Response(address, wholeMsg)];
    assert events[1..] == [Response(address, wholeMsg)];
    assert events[1..][1..] == [];
    assert !TimerExpired(now, now);
    assert Dispatch(events[1..], now, {}) == Dispatch([], now, {EndpointString(address)});
  }

  /** The same, for any scan: with the start time left at 0 and a clock past
      five seconds, the scan ends at its first tick. */
  lemma {:induction false} AsWrittenStopsAtFirstTick(events: seq<BroadcastEvent>, i: nat)
    requires i < |events| && events[i].Tick? && events[i].timeNow > MaxWaitForResponses
    requires forall j :: 0 <= j < i ==> events[j].Response?
    ensures StopAt(events, 0.0) == i
  {
    if i > 0 {
      AsWrittenStopsAtFirstTick(events[1..], i - 1);
    }
  }
}
