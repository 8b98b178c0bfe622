/** The network backend of the Brother QL printer driver: parsing of a
    `tcp://host[:port]` device specifier, the connection object with its
    write path over a TCP stream and its read path over SNMP status
    queries, and the read retry strategies.

    The TCP socket is abstract state (open or closed, its timeout, what was
    sent through it); the outcomes of `connect`, `sendall`, `shutdown` and of
    every SNMP query are parameters chosen by the caller. */
module Network {
  import opened Common
  import opened Decimal
  import Generic

  /** The SNMP object identifiers the backend can query. As written, the
      netmask and MAC entries name the same identifier. */
  const SnmpOids: map<string, string> := map[
    "snmp_get_ip" := "1.3.6.1.4.1.1240.2.3.4.5.2.3.0",
    "snmp_get_netmask" := "1.3.6.1.4.1.1240.2.3.4.5.2.4.0",
    "snmp_get_mac" := "1.3.6.1.4.1.1240.2.3.4.5.2.4.0",
    "snmp_get_location" := "1.3.6.1.2.1.1.6.0",
    "snmp_get_model" := "1.3.6.1.2.1.25.3.2.1.3.1",
    "snmp_get_serial" := "1.3.6.1.2.1.43.5.1.1.17",
    "snmp_get_status" := "1.3.6.1.4.1.2435.3.3.9.1.6.1.0"
  ]

  const StatusOid: string := "1.3.6.1.4.1.2435.3.3.9.1.6.1.0"

  /** The table has seven entries; the status query uses its
      `snmp_get_status` entry, and the MAC and netmask entries coincide. */
  lemma SnmpOidsTable()
    ensures |SnmpOids| == 7
    ensures "snmp_get_status" in SnmpOids && SnmpOids["snmp_get_status"] == StatusOid
    ensures SnmpOids["snmp_get_mac"] == SnmpOids["snmp_get_netmask"] != SnmpOids["snmp_get_ip"]
  {
  }

  const Scheme: string := "tcp://"
  const DefaultPort: int := 9100

  /** Seconds: the socket timeout between operations, and during a send. */
  const DefaultReadTimeout: real := 0.01
  const WriteTimeout: real := 10.0

  /** The read strategies the backend implements; any other name (such as
      "select") is accepted by the constructor but refused by a read. */
  const StrategySocketTimeout: string := "socket_timeout"
  const StrategyTryTwice: string := "try_twice"

  /** What the caller passes as `device_specifier`: a string, or anything
      else (such as a raw file descriptor). */
  datatype DeviceSpecifier = Text(text: string) | RawHandle(fd: int)

  /** The address the socket connects to. */
  datatype Endpoint = Endpoint(host: string, port: int)

  /** `s.partition(sep)`: the text before the first `sep`, the separator
      itself (or nothing when absent), and the rest. */
  function Partition(s: string, sep: char): (r: (string, string, string))
    ensures r.0 + r.1 + r.2 == s
    ensures sep !in r.0
    ensures r.1 == [sep] || (r.1 == [] && r.2 == [] && sep !in s)
  {
    if s == [] then ("", "", "")
    else if s[0] == sep then ("", [sep], s[1..])
    else
      var (before, separator, after) := Partition(s[1..], sep);
      ([s[0]] + before, separator, after)
  }

  predicate HasScheme(spec: string) {
    |spec| >= |Scheme| && spec[..|Scheme|] == Scheme
  }

  /** The specifier with one leading `tcp://` removed. */
  function Unprefixed(spec: string): string {
    if HasScheme(spec) then spec[|Scheme|..] else spec
  }

  /** The host and port a string specifier names: the host ends at the first
      `:`, the port is `int()` of what follows, or 9100 when nothing
      follows. A port text `int()` refuses raises `ValueError`. */
  function ParseSpecifier(spec: string): (r: Outcome<Endpoint>)
    ensures r.Raised? ==> r.exc == ValueError
    ensures r.Returned? ==> ':' !in r.value.host && r.value.host <= Unprefixed(spec)
    ensures r.Returned? && Unprefixed(spec) in {r.value.host, r.value.host + ":"} ==> r.value.port == DefaultPort
  {
    var (host, _, portText) := Partition(Unprefixed(spec), ':');
    if portText == "" then
      Returned(Endpoint(host, DefaultPort))
    else
      match ParseInt(portText)
      case None => Raised(ValueError)
      case Some(port) => Returned(Endpoint(host, port))
  }

  /** A specifier with an explicit decimal port names that host and port,
      with or without the scheme. */
  lemma ParseSpecifierWithPort(host: string, port: nat, withScheme: bool)
    requires ':' !in host && |NatToString(port)| <= MaxStrDigits
    ensures ParseSpecifier((if withScheme then Scheme else "") + host + ":" + NatToString(port))
            == Returned(Endpoint(host, port))
  {
    var text := NatToString(port);
    var spec := (if withScheme then Scheme else "") + host + ":" + text;
    UnprefixedHost(host, ":" + text, withScheme);
    assert spec == (if withScheme then Scheme else "") + host + (":" + text);
    ParseSpecifierSplit(spec, host, text);
    ParseIntOfNatToString(port);
  }

  /** A specifier whose unprefixed text is a colon-free host, `:` and a port
      text names that host and the value of the port text. */
  lemma ParseSpecifierSplit(spec: string, host: string, portText: string)
    requires ':' !in host
    requires Unprefixed(spec) == host + (":" + portText)
    ensures portText == "" ==> ParseSpecifier(spec) == Returned(Endpoint(host, DefaultPort))
    ensures portText != "" && ParseInt(portText).Some? ==>
              ParseSpecifier(spec) == Returned(Endpoint(host, ParseInt(portText).value))
    ensures portText != "" && ParseInt(portText).None? ==> ParseSpecifier(spec) == Raised(ValueError)
  {
    assert host + (":" + portText) == host + [':'] + portText;
    PartitionAtFirst(host, portText, ':');
  }

  /** A specifier without a port, or with an empty one, names port 9100. */
  lemma ParseSpecifierDefaultPort(host: string, withScheme: bool, trailingColon: bool)
    requires ':' !in host
    ensures ParseSpecifier((if withScheme then Scheme else "") + host + (if trailingColon then ":" else ""))
            == Returned(Endpoint(host, DefaultPort))
  {
    var tail := if trailingColon then ":" else "";
    UnprefixedHost(host, tail, withScheme);
    if trailingColon {
      assert host + tail == host + [':'] + "";
      PartitionAtFirst(host, "", ':');
    } else {
      assert host + tail == host;
      PartitionWithout(host, ':');
    }
  }

  /** Removing the optional scheme from a host followed by a port part gives
      back exactly that text. */
  lemma UnprefixedHost(host: string, tail: string, withScheme: bool)
    requires ':' !in host
    requires tail == "" || (tail[0] == ':' && (|tail| < 2 || tail[1] != '/'))
    ensures Unprefixed((if withScheme then Scheme else "") + host + tail) == host + tail
  {
    var spec := (if withScheme then Scheme else "") + host + tail;
    if withScheme {
      assert spec == Scheme + (host + tail);
      assert spec[..|Scheme|] == Scheme;
    } else {
      NotSchemePrefixed(host, tail);
    }
  }

  /** A host without `:` followed by nothing, or by `:` and no `/`, does not
      start with the scheme. */
  lemma NotSchemePrefixed(host: string, tail: string)
    requires ':' !in host
    requires tail == "" || (tail[0] == ':' && (|tail| < 2 || tail[1] != '/'))
    ensures !HasScheme(host + tail)
  {
    var s := host + tail;
    if |s| >= |Scheme| {
      var k := if |host| > 3 then 3 else if |host| < 3 then |host| else 4;
      assert s[k] != Scheme[k];
      assert s[..|Scheme|][k] != Scheme[k];
    }
  }

  lemma {:induction false} PartitionAtFirst(before: string, after: string, sep: char)
    requires sep !in before
    ensures Partition(before + [sep] + after, sep) == (before, [sep], after)
  {
    var s := before + [sep] + after;
    if before == [] {
      assert s[1..] == after;
    } else {
      assert s[0] == before[0] != sep;
      assert s[1..] == before[1..] + [sep] + after;
      PartitionAtFirst(before[1..], after, sep);
      assert [before[0]] + before[1..] == before;
    }
  }

  lemma {:induction false} PartitionWithout(s: string, sep: char)
    requires sep !in s
    ensures Partition(s, sep) == (s, "", "")
  {
    if s != [] {
      PartitionWithout(s[1..], sep);
      assert [s[0]] + s[1..] == s;
    }
  }

  /** What `BrotherQLBackendNetwork(device_specifier)` ends in, given the
      outcome of creating and connecting the socket to an endpoint: the
      endpoint connected to, or the exception construction raises. */
  function Establish(spec: DeviceSpecifier, connect: Endpoint -> Outcome<()>): (r: Outcome<Endpoint>)
    ensures spec.RawHandle? ==> r == Raised(NotImplementedError)
    ensures r.Raised? ==> !IsOSError(r.exc)
    ensures r.Returned? <==> spec.Text? && ParseSpecifier(spec.text).Returned?
                             && connect(ParseSpecifier(spec.text).value).Returned?
    ensures r.Returned? ==> r == ParseSpecifier(spec.text)
    ensures spec.Text? && ParseSpecifier(spec.text).Raised? ==> r == Raised(ValueError)
    ensures spec.Text? && ParseSpecifier(spec.text).Returned? && connect(ParseSpecifier(spec.text).value).Raised? ==>
              var e := connect(ParseSpecifier(spec.text).value).exc;
              r == Raised(if IsOSError(e) then ValueError else e)
  {
    match spec
    case RawHandle(_) => Raised(NotImplementedError)
    case Text(text) =>
      match ParseSpecifier(text)
      case Raised(e) => Raised(e)
      case Returned(endpoint) =>
        match connect(endpoint)
        case Raised(e) => Raised(if IsOSError(e) then ValueError else e)
        case Returned(_) => Returned(endpoint)
  }

  /** A failed connection is reported as `ValueError`, other failures of the
      socket calls pass through unchanged. */
  lemma EstablishReportsConnectFailure(text: string, connect: Endpoint -> Outcome<()>)
    requires ParseSpecifier(text).Returned? && connect(ParseSpecifier(text).value).Raised?
    ensures var e := connect(ParseSpecifier(text).value).exc;
            Establish(Text(text), connect) == Raised(if IsOSError(e) then ValueError else e)
  {
  }

  /** The socket timeout the constructor applies for a strategy. */
  function TimeoutFor(strategy: string, readTimeout: real): (t: real)
    ensures Tries(strategy).Some? ==> t == readTimeout
    ensures Tries(strategy).None? ==> t == 0.0
  {
    if strategy == StrategySocketTimeout || strategy == StrategyTryTwice then readTimeout else 0.0
  }

  /** How many status queries a read may make under a strategy; `None` for
      a strategy a read refuses. */
  function Tries(strategy: string): (n: Option<nat>)
    ensures n.Some? <==> strategy == StrategySocketTimeout || strategy == StrategyTryTwice
    ensures strategy == StrategySocketTimeout ==> n == Some(1)
    ensures strategy == StrategyTryTwice ==> n == Some(2)
  {
    if strategy == StrategySocketTimeout then Some(1)
    else if strategy == StrategyTryTwice then Some(2)
    else None
  }

  /** The variable bindings an SNMP get answers with. */
  type Dataset = map<string, Bytes>

  /** What one status query gives `_read`: the status value of an answer
      (`KeyError` when the answer lacks it) or the exception it raised. */
  function Answer(query: Outcome<Dataset>): (r: Outcome<Bytes>)
    ensures r.Returned? <==> query.Returned? && StatusOid in query.value
    ensures r.Returned? ==> r.value == query.value[StatusOid]
    ensures r.Raised? ==> r.exc == if query.Raised? then query.exc else KeyError
  {
    match query
    case Returned(dataset) => if StatusOid in dataset then Returned(dataset[StatusOid]) else Raised(KeyError)
    case Raised(e) => Raised(e)
  }

  /** Queries number `i` up to `tries`, skipping those that time out: the
      read's result and the number of queries made. */
  function QueryFrom(query: nat -> Outcome<Dataset>, i: nat, tries: nat): (r: (Outcome<Bytes>, nat))
    requires i <= tries
    ensures i <= r.1 <= tries && (i < tries ==> i < r.1)
    ensures r.1 < tries ==> query(r.1 - 1) != Raised(SocketTimeout) && r.0 == Answer(query(r.1 - 1))
    decreases tries - i
  {
    if i == tries then (Returned([]), tries)
    else if query(i) == Raised(SocketTimeout) then QueryFrom(query, i + 1, tries)
    else (Answer(query(i)), i + 1)
  }

  /** `_read` under a strategy, given the outcome of the `i`-th SNMP status
      query as `query(i)`: the result and the number of queries made. */
  function ReadSpec(strategy: string, query: nat -> Outcome<Dataset>): (r: (Outcome<Bytes>, nat))
    ensures Tries(strategy).None? ==> r == (Raised(NotImplementedError), 0)
    ensures Tries(strategy).Some? ==> 1 <= r.1 <= Tries(strategy).value
  {
    match Tries(strategy)
    case None => (Raised(NotImplementedError), 0)
    case Some(tries) => QueryFrom(query, 0, tries)
  }

  lemma {:induction false} QueryFromFirstAnswer(query: nat -> Outcome<Dataset>, i: nat, tries: nat)
    requires i < tries
    requires forall j :: 0 <= j < i ==> query(j) == Raised(SocketTimeout)
    ensures var (r, made) := QueryFrom(query, i, tries);
            && i < made <= tries
            && (forall j :: 0 <= j < made - 1 ==> query(j) == Raised(SocketTimeout))
            && if query(made - 1) == Raised(SocketTimeout)
               then made == tries && r == Returned([])
               else r == Answer(query(made - 1))
    decreases tries - i
  {
    if query(i) == Raised(SocketTimeout) && i + 1 < tries {
      QueryFromFirstAnswer(query, i + 1, tries);
    }
  }

  /** The retry policy: a known strategy makes one query (`socket_timeout`)
      or at most two (`try_twice`), stops at the first that does not time
      out and returns its answer, and returns empty bytes when every query
      timed out; any other strategy raises `NotImplementedError` without
      querying. */
  lemma ReadSpecRetryPolicy(strategy: string, query: nat -> Outcome<Dataset>)
    ensures Tries(strategy).None? ==> ReadSpec(strategy, query) == (Raised(NotImplementedError), 0)
    ensures Tries(strategy).Some? ==>
              var tries := Tries(strategy).value;
              var (r, made) := ReadSpec(strategy, query);
              && 1 <= made <= tries
              && (forall j :: 0 <= j < made - 1 ==> query(j) == Raised(SocketTimeout))
              && if query(made - 1) == Raised(SocketTimeout)
                 then made == tries && r == Returned([])
                 else r == Answer(query(made - 1))
  {
    if Tries(strategy).Some? {
      QueryFromFirstAnswer(query, 0, Tries(strategy).value);
    }
  }

  /** One `sendall` over the stream: the bytes and the socket timeout in
      force while they were sent. */
  datatype Transmission = Transmission(data: Bytes, timeout: real)

  /** A connected `BrotherQLBackendNetwork`. The methods Write, Read,
      Dispose and Del are the template methods every backend inherits; the
      methods ending in Hook are this backend's `_write`, `_read` and
      `_dispose`. */
  class NetworkBackend {
    var host: string
    var strategy: string
    var readTimeout: real

    // The TCP socket `s`.
    var peer: Endpoint
    var socketOpen: bool
    var socketTimeout: real
    var transmitted: seq<Transmission>

    /** The object once its socket has connected to `peer`. */
    constructor Connected(peer: Endpoint)
      ensures this.peer == peer && host == peer.host
      ensures strategy == StrategySocketTimeout && readTimeout == DefaultReadTimeout
      ensures socketOpen && transmitted == []
      ensures socketTimeout == TimeoutFor(strategy, readTimeout) == DefaultReadTimeout
    {
      readTimeout := DefaultReadTimeout;
      strategy := StrategySocketTimeout;
      host := peer.host;
      this.peer := peer;
      socketOpen := true;
      transmitted := [];
      new;
      socketTimeout := TimeoutFor(strategy, readTimeout);
    }

    /** `_write`: sends `data` with the socket timeout raised to 10 seconds,
        then restores the read timeout. When `sendall` raises, the exception
        propagates and the timeout stays at 10; on a closed socket the first
        `settimeout` already raises `OSError`. */
    method WriteHook(data: Bytes, sendall: Outcome<()>) returns (r: Outcome<()>)
      modifies this`socketTimeout, this`transmitted
      ensures !socketOpen ==> r == Raised(OSError) && unchanged(this)
      ensures socketOpen ==> r == sendall
      ensures socketOpen && sendall.Returned? ==>
                transmitted == old(transmitted) + [Transmission(data, WriteTimeout)] && socketTimeout == readTimeout
      ensures socketOpen && sendall.Raised? ==>
                transmitted == old(transmitted) && socketTimeout == WriteTimeout
    {
      if !socketOpen {
        return Raised(OSError);
      }
      socketTimeout := WriteTimeout;
      if sendall.Raised? {
        return sendall;
      }
      transmitted := transmitted + [Transmission(data, socketTimeout)];
      socketTimeout := readTimeout;
      r := sendall;
    }

    /** `write`: hands exactly `data` to `_write`. */
    method Write(data: Bytes, sendall: Outcome<()>) returns (r: Outcome<()>)
      modifies this`socketTimeout, this`transmitted
      ensures !socketOpen ==> r == Raised(OSError) && unchanged(this)
      ensures socketOpen ==> r == sendall
      ensures socketOpen && sendall.Returned? ==>
                transmitted == old(transmitted) + [Transmission(data, WriteTimeout)] && socketTimeout == readTimeout
      ensures socketOpen && sendall.Raised? ==>
                transmitted == old(transmitted) && socketTimeout == WriteTimeout
    {
      r := WriteHook(data, sendall);
    }

    /** `_read`: the retry loop over SNMP status queries to `host`; `length`
        is ignored and the socket is not used. */
    method ReadHook(length: int, query: nat -> Outcome<Dataset>) returns (r: Outcome<Bytes>, queries: nat)
      ensures (r, queries) == ReadSpec(strategy, query)
    {
      if strategy == StrategySocketTimeout || strategy == StrategyTryTwice {
        var tries := if strategy == StrategySocketTimeout then 1 else 2;
        for i := 0 to tries
          invariant QueryFrom(query, i, tries) == ReadSpec(strategy, query)
        {
          var outcome := query(i);
          if outcome != Raised(SocketTimeout) {
            return Answer(outcome), i + 1;
          }
        }
        return Returned([]), tries;
      } else {
        return Raised(NotImplementedError), 0;
      }
    }

    /** `read`: returns exactly what `_read` returns, empty bytes included,
        and re-raises what it raises. */
    method Read(length: int, query: nat -> Outcome<Dataset>) returns (r: Outcome<Bytes>, queries: nat)
      ensures (r, queries) == ReadSpec(strategy, query)
    {
      r, queries := ReadHook(length, query);
    }

    /** `_dispose`: shuts the socket down in both directions, then closes it.
        The shutdown raises `OSError` on a socket already closed, so a second
        call fails; `shutdownOk` says whether the shutdown of an open socket
        succeeds. */
    method DisposeHook(shutdownOk: bool) returns (r: Outcome<()>)
      modifies this`socketOpen
      ensures !old(socketOpen) ==> r == Raised(OSError) && !socketOpen
      ensures old(socketOpen) && !shutdownOk ==> r == Raised(OSError) && socketOpen
      ensures old(socketOpen) && shutdownOk ==> r == Returned(()) && !socketOpen
    {
      if !socketOpen || !shutdownOk {
        return Raised(OSError);
      }
      socketOpen := false;
      r := Returned(());
    }

    /** `dispose`: runs `_dispose` and swallows whatever it raises. */
    method Dispose(shutdownOk: bool) returns (r: Outcome<()>)
      modifies this`socketOpen
      ensures r == Returned(())
      ensures socketOpen == (old(socketOpen) && !shutdownOk)
    {
      var hook := DisposeHook(shutdownOk);
      r := Generic.Dispose(hook);
    }

    /** `__del__`: disposes. */
    method Del(shutdownOk: bool) returns (r: Outcome<()>)
      modifies this`socketOpen
      ensures r == Returned(())
      ensures socketOpen == (old(socketOpen) && !shutdownOk)
    {
      r := Dispose(shutdownOk);
    }
  }

  /** `BrotherQLBackendNetwork(device_specifier)`: a new connected object,
      or the exception construction raises (no object then). */
  method Open(spec: DeviceSpecifier, connect: Endpoint -> Outcome<()>) returns (r: Outcome<NetworkBackend>)
    ensures r.Raised? <==> Establish(spec, connect).Raised?
    ensures r.Raised? ==> r.exc == Establish(spec, connect).exc
    ensures r.Returned? ==>
              && fresh(r.value)
              && r.value.peer == Establish(spec, connect).value
              && r.value.host == r.value.peer.host
              && r.value.socketOpen && r.value.transmitted == []
              && r.value.strategy == StrategySocketTimeout
              && r.value.socketTimeout == r.value.readTimeout == DefaultReadTimeout
  {
    var established := Establish(spec, connect);
    if established.Raised? {
      return Raised(established.exc);
    }
    var backend := new NetworkBackend.Connected(established.value);
    r := Returned(backend);
  }

  /** Calling `dispose` twice never raises, although the second `_dispose`
      does. */
  method DisposeTwice(b: NetworkBackend) returns (first: Outcome<()>, hook: Outcome<()>, second: Outcome<()>)
    requires b.socketOpen
    modifies b`socketOpen
    ensures first == second == Returned(())
    ensures hook == Raised(OSError)
    ensures !b.socketOpen
  {
    first := b.Dispose(true);
    hook := b.DisposeHook(true);
    second := b.Dispose(true);
  }

  /** A write after `dispose` raises `OSError` and sends nothing. */
  method WriteAfterDispose(b: NetworkBackend, data: Bytes, sendall: Outcome<()>) returns (r: Outcome<()>)
    requires b.socketOpen
    modifies b`socketOpen, b`socketTimeout, b`transmitted
    ensures r == Raised(OSError)
    ensures b.transmitted == old(b.transmitted)
  {
    var disposed := b.Dispose(true);
    r := b.Write(data, sendall);
  }
}
