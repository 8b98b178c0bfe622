/** The printing helpers: choosing a backend, sending instructions and
    polling the printer's status until it reports that the job printed, and
    one status request.

    The backend factory, the backend's guess from a printer identifier and
    the parser of status responses are not part of this model: they are
    parameters. So is the printer: its construction and write outcomes, and
    the successive results of its `read`. The ten-second polling budget of
    `send` is the length of that sequence of results of `read`. */
module Helpers {
  import opened Common

  /** The `'outcome'` entry of a send status. */
  datatype SendOutcome = Unknown | Sent | Printed | Error

  /** The part of a parsed status response that `send` examines. */
  datatype PrinterResponse = PrinterResponse(errors: seq<string>, statusType: string, phaseType: string)

  /** The status dictionary `send` returns. */
  datatype SendStatus = SendStatus(
    instructionsSent: bool,
    outcome: SendOutcome,
    printerState: Option<PrinterResponse>,
    didPrint: bool,
    readyForNextJob: bool)

  /** What a helper asks of the printer backend, in order. */
  datatype Call = Open(backend: string, printer: Option<string>) | Write(data: Bytes) | Read

  /** Where the polling loop is after some results of `read`: still polling, left by
      `break`, or left by an exception. */
  datatype Poll = Running(status: SendStatus) | Stopped(status: SendStatus) | Failed(exc: Exc)

  const DefaultBackend: string := "pyusb"
  const NetworkBackendName: string := "network"

  const InitialStatus: SendStatus := SendStatus(true, Unknown, None, false, false)
  const SentStatus: SendStatus := SendStatus(true, Sent, None, false, false)

  /** "ESC i S", the status information request. */
  const StatusRequest: Bytes := [0x1B, 0x69, 0x53]

  /** Python truthiness of an optional string. */
  predicate Truthy(s: Option<string>) {
    s.Some? && s.value != ""
  }

  /** The backend `send` uses: the one named, or the one guessed from the
      printer identifier, or "pyusb" when the guess raises anything. */
  function SelectBackend(backendId: Option<string>, printerId: Option<string>,
                         guess: Option<string> -> Outcome<string>): (r: string)
    ensures Truthy(backendId) ==> r == backendId.value
    ensures !Truthy(backendId) ==> r == match guess(printerId)
                                         case Returned(b) => b
                                         case Raised(_) => DefaultBackend
  {
    if Truthy(backendId) then backendId.value
    else match guess(printerId)
      case Returned(b) => b
      case Raised(_) => DefaultBackend
  }

  /** The backend `status` uses: as for `send`, except that only a
      `ValueError` from the guess falls back to "pyusb"; any other
      exception propagates. */
  function SelectStatusBackend(backendId: Option<string>, printerId: Option<string>,
                               guess: Option<string> -> Outcome<string>): (r: Outcome<string>)
    ensures r.Raised? <==> !Truthy(backendId) && guess(printerId).Raised? && guess(printerId).exc != ValueError
    ensures r.Raised? ==> r == guess(printerId)
  {
    if Truthy(backendId) then Returned(backendId.value)
    else match guess(printerId)
      case Returned(b) => Returned(b)
      case Raised(e) => if e == ValueError then Returned(DefaultBackend) else Raised(e)
  }

  /** The two selection rules agree wherever `status` does not raise. */
  lemma SelectionsAgree(backendId: Option<string>, printerId: Option<string>,
                        guess: Option<string> -> Outcome<string>)
    requires SelectStatusBackend(backendId, printerId, guess).Returned?
    ensures SelectStatusBackend(backendId, printerId, guess).value == SelectBackend(backendId, printerId, guess)
  {
  }

  /** One pass of the polling loop over one `read` result. */
  function Step(status: SendStatus, read: Outcome<Bytes>, interpret: Bytes -> Outcome<PrinterResponse>): (r: Poll)
    ensures r.Failed? <==> read.Raised? || (read.value != [] && interpret(read.value).Raised?
                                             && interpret(read.value).exc != ValueError)
    ensures r.Failed? ==> r.exc == if read.Raised? then read.exc else interpret(read.value).exc
    ensures !r.Failed? ==> r.status.instructionsSent == status.instructionsSent
    ensures !r.Failed? ==> (status.didPrint ==> r.status.didPrint) && (status.readyForNextJob ==> r.status.readyForNextJob)
    ensures r.Stopped? ==> r.status.outcome == Error || (r.status.didPrint && r.status.readyForNextJob)
    ensures read.Returned? && read.value != [] && interpret(read.value).Returned? ==>
              var result := interpret(read.value).value;
              && !r.Failed? && r.status.printerState == Some(result)
              && (result.errors != [] ==> r == Stopped(status.(printerState := Some(result), outcome := Error)))
              && (result.errors == [] ==>
                    && (result.statusType == "Printing completed" ==> r.status.didPrint && r.status.outcome == Printed)
                    && (result.statusType != "Printing completed" ==>
                          r.status.didPrint == status.didPrint && r.status.outcome == status.outcome)
                    && (result.statusType == "Phase change" && result.phaseType == "Waiting to receive" ==>
                          r.status.readyForNextJob)
                    && (!(result.statusType == "Phase change" && result.phaseType == "Waiting to receive") ==>
                          r.status.readyForNextJob == status.readyForNextJob)
                    && r.status.instructionsSent == status.instructionsSent
                    && (r.Stopped? <==> r.status.didPrint && r.status.readyForNextJob))
  {
    match read
    case Raised(e) => Failed(e)
    case Returned(data) =>
      if data == [] then Running(status)
      else
        match interpret(data)
        case Raised(e) => if e == ValueError then Running(status) else Failed(e)
        case Returned(result) =>
          var recorded := status.(printerState := Some(result));
          if result.errors != [] then Stopped(recorded.(outcome := Error))
          else
            var printed := if result.statusType == "Printing completed"
                           then recorded.(didPrint := true, outcome := Printed) else recorded;
            var ready := if result.statusType == "Phase change" && result.phaseType == "Waiting to receive"
                         then printed.(readyForNextJob := true) else printed;
            if ready.didPrint && ready.readyForNextJob then Stopped(ready) else Running(ready)
  }

  /** The polling loop over the results of `read` the budget allows. */
  function Run(status: SendStatus, replies: seq<Outcome<Bytes>>, interpret: Bytes -> Outcome<PrinterResponse>): (r: Poll)
    ensures !r.Failed? ==> r.status.instructionsSent == status.instructionsSent
    ensures r.Stopped? ==> r.status.outcome == Error || (r.status.didPrint && r.status.readyForNextJob)
    ensures r.Failed? ==> exists i :: 0 <= i < |replies| && (replies[i] == Raised(r.exc)
                                                           || (replies[i].Returned? && replies[i].value != []
                                                               && interpret(replies[i].value) == Raised(r.exc)))
    decreases |replies|
  {
    if replies == [] then Running(status)
    else
      match Step(status, replies[0], interpret)
      case Running(next) => Run(next, replies[1..], interpret)
      case other => other
  }

  /** How many times the polling loop calls `read`. */
  function Polls(status: SendStatus, replies: seq<Outcome<Bytes>>, interpret: Bytes -> Outcome<PrinterResponse>): nat
    decreases |replies|
  {
    if replies == [] then 0
    else
      match Step(status, replies[0], interpret)
      case Running(next) => 1 + Polls(next, replies[1..], interpret)
      case _ => 1
  }

  /** `read` calls, `n` of them. */
  function ReadCalls(n: nat): (calls: seq<Call>)
    ensures |calls| == n && forall i :: 0 <= i < n ==> calls[i] == Read
  {
    seq(n, _ => Read)
  }

  /** What `send` returns once the loop is left. */
  function Finish(poll: Poll): Outcome<SendStatus> {
    match poll
    case Running(status) => Returned(status)
    case Stopped(status) => Returned(status)
    case Failed(e) => Raised(e)
  }

  /** `send`: selects a backend, opens the printer, writes the instructions,
      and unless the call is non-blocking or the backend is the network one
      (which cannot read back), polls the printer's status. */
  method Send(instructions: Bytes, printerId: Option<string>, backendId: Option<string>, blocking: bool,
              guess: Option<string> -> Outcome<string>, open: string -> Outcome<()>, write: Outcome<()>,
              replies: seq<Outcome<Bytes>>, interpret: Bytes -> Outcome<PrinterResponse>)
    returns (r: Outcome<SendStatus>, calls: seq<Call>)
    ensures var backend := SelectBackend(backendId, printerId, guess);
            && |calls| >= 1 && calls[0] == Open(backend, printerId)
            && (open(backend).Raised? ==> r == Raised(open(backend).exc) && calls == [Open(backend, printerId)])
            && (open(backend).Returned? ==> |calls| >= 2 && calls[..2] == [Open(backend, printerId), Write(instructions)])
            && (open(backend).Returned? && write.Raised? ==> r == Raised(write.exc) && |calls| == 2)
            && (open(backend).Returned? && write.Returned? && (!blocking || backend == NetworkBackendName) ==>
                  r == Returned(SentStatus) && |calls| == 2)
            && (open(backend).Returned? && write.Returned? && blocking && backend != NetworkBackendName ==>
                  && r == Finish(Run(SentStatus, replies, interpret))
                  && calls[2..] == ReadCalls(Polls(SentStatus, replies, interpret)))
  {
    var status := InitialStatus;
    var backend := SelectBackend(backendId, printerId, guess);
    calls := [Open(backend, printerId)];
    var connection := open(backend);
    if connection.Raised? {
      return Raised(connection.exc), calls;
    }
    calls := calls + [Write(instructions)];
    if write.Raised? {
      return Raised(write.exc), calls;
    }
    status := status.(outcome := Sent);
    if !blocking {
      return Returned(status), calls;
    }
    if backend == NetworkBackendName {
      return Returned(status), calls;
    }
    var i := 0;
    while i < |replies|
      invariant 0 <= i <= |replies|
      invariant Run(status, replies[i..], interpret) == Run(SentStatus, replies, interpret)
      invariant Polls(SentStatus, replies, interpret) == i + Polls(status, replies[i..], interpret)
      invariant calls == [Open(backend, printerId), Write(instructions)] + ReadCalls(i)
      decreases |replies| - i
    {
      assert replies[i..][1..] == replies[i + 1..];
      var data := replies[i];
      calls := calls + [Read];
      i := i + 1;
      if data.Raised? {
        return Raised(data.exc), calls;
      }
      if data.value == [] {
        continue;
      }
      var parsed := interpret(data.value);
      if parsed.Raised? {
        if parsed.exc == ValueError {
          continue;
        }
        return Raised(parsed.exc), calls;
      }
      var result := parsed.value;
      status := status.(printerState := Some(result));
      if result.errors != [] {
        status := status.(outcome := Error);
        break;
      }
      if result.statusType == "Printing completed" {
        status := status.(didPrint := true, outcome := Printed);
      }
      if result.statusType == "Phase change" && result.phaseType == "Waiting to receive" {
        status := status.(readyForNextJob := true);
      }
      if status.didPrint && status.readyForNextJob {
        break;
      }
    }
    r := Returned(status);
  }

  /** Polling with a longer budget carries on from where the shorter one
      ran out, and changes nothing once the loop was left. */
  lemma {:induction false} RunSplit(status: SendStatus, first: seq<Outcome<Bytes>>, second: seq<Outcome<Bytes>>,
                                    interpret: Bytes -> Outcome<PrinterResponse>)
    ensures Run(status, first + second, interpret)
            == match Run(status, first, interpret)
               case Running(next) => Run(next, second, interpret)
               case other => other
    decreases |first|
  {
    if first == [] {
      assert first + second == second;
    } else {
      assert (first + second)[0] == first[0];
      assert (first + second)[1..] == first[1..] + second;
      match Step(status, first[0], interpret)
      case Running(next) => RunSplit(next, first[1..], second, interpret);
      case _ =>
    }
  }

  /** Neither flag is ever reset to False. */
  lemma {:induction false} RunKeepsFlags(status: SendStatus, replies: seq<Outcome<Bytes>>,
                                         interpret: Bytes -> Outcome<PrinterResponse>)
    ensures !Run(status, replies, interpret).Failed? ==>
              && (status.didPrint ==> Run(status, replies, interpret).status.didPrint)
              && (status.readyForNextJob ==> Run(status, replies, interpret).status.readyForNextJob)
    decreases |replies|
  {
    if replies != [] {
      match Step(status, replies[0], interpret)
      case Running(next) => RunKeepsFlags(next, replies[1..], interpret);
      case _ =>
    }
  }

  /** The state of the status while the loop runs: instructions sent,
      outcome 'sent' or 'printed' exactly as a print was seen, and not yet
      both flags. */
  predicate Polling(status: SendStatus) {
    && status.instructionsSent
    && (status.outcome == Sent || status.outcome == Printed)
    && (status.outcome == Printed <==> status.didPrint)
    && !(status.didPrint && status.readyForNextJob)
  }

  /** The loop is left by `break` only on a response with errors (recorded
      as the printer state, with outcome 'error') or once both flags are
      set (outcome 'printed'); when the budget runs out first, the status
      is still a polling one, so never both flags. */
  lemma {:induction false} RunEnds(status: SendStatus, replies: seq<Outcome<Bytes>>,
                                   interpret: Bytes -> Outcome<PrinterResponse>)
    requires Polling(status)
    ensures Run(status, replies, interpret).Running? ==> Polling(Run(status, replies, interpret).status)
    ensures Run(status, replies, interpret).Stopped? ==>
              var final := Run(status, replies, interpret).status;
              && final.instructionsSent
              && ((final.outcome == Error && final.printerState.Some? && final.printerState.value.errors != []
                   && !(final.didPrint && final.readyForNextJob))
                  || (final.outcome == Printed && final.didPrint && final.readyForNextJob))
    decreases |replies|
  {
    if replies != [] {
      match Step(status, replies[0], interpret)
      case Running(next) => RunEnds(next, replies[1..], interpret);
      case _ =>
    }
  }

  /** What a blocking `send` on a backend with read-back returns, when no
      exception escapes: the instructions were sent and the outcome is
      'sent', 'printed' or 'error', never 'unknown'; 'printed' only with
      `did_print`; and a printer that both printed and is ready for the next
      job always comes with outcome 'printed'. */
  lemma SendStatusConsistent(replies: seq<Outcome<Bytes>>, interpret: Bytes -> Outcome<PrinterResponse>)
    ensures Finish(Run(SentStatus, replies, interpret)).Returned? ==>
              var final := Finish(Run(SentStatus, replies, interpret)).value;
              && final.instructionsSent
              && final.outcome != Unknown
              && (final.outcome == Printed ==> final.didPrint)
              && (final.didPrint && final.readyForNextJob ==> final.outcome == Printed)
  {
    RunEnds(SentStatus, replies, interpret);
  }

  /** A printer that reports "Printing completed" and then "Waiting to
      receive", to a poll not yet ready (as after the write), ends the
      polling with outcome 'printed' and both flags set. */
  lemma PrintedThenReady(status: SendStatus, completed: Bytes, waiting: Bytes,
                         interpret: Bytes -> Outcome<PrinterResponse>)
    requires Polling(status) && !status.readyForNextJob
    requires completed != [] && interpret(completed).Returned?
    requires interpret(completed).value.errors == [] && interpret(completed).value.statusType == "Printing completed"
    requires waiting != [] && interpret(waiting) == Returned(PrinterResponse([], "Phase change", "Waiting to receive"))
    ensures var r := Run(status, [Returned(completed), Returned(waiting)], interpret);
            && r.Stopped? && r.status.outcome == Printed && r.status.didPrint && r.status.readyForNextJob
            && r.status.printerState == Some(PrinterResponse([], "Phase change", "Waiting to receive"))
  {
    var replies: seq<Outcome<Bytes>> := [Returned(completed), Returned(waiting)];
    var first := Step(status, replies[0], interpret);
    assert first.Running?;
    assert replies[1..] == [Returned(waiting)];
    assert |replies[1..][1..]| == 0;
  }

  /** Empty read data and responses that fail to parse with `ValueError`
      leave the status unchanged and the loop goes on. */
  lemma StepSkips(status: SendStatus, data: Bytes, interpret: Bytes -> Outcome<PrinterResponse>)
    requires data == [] || interpret(data) == Raised(ValueError)
    ensures Step(status, Returned(data), interpret) == Running(status)
  {
  }

  /** A response with errors ends the loop before its status type is looked
      at: even "Printing completed" does not set `did_print` then. */
  lemma ErrorsEndPolling(status: SendStatus, data: Bytes, interpret: Bytes -> Outcome<PrinterResponse>)
    requires data != [] && interpret(data).Returned? && interpret(data).value.errors != []
    ensures Step(status, Returned(data), interpret)
            == Stopped(status.(printerState := Some(interpret(data).value), outcome := Error))
  {
  }

  /** `status`: selects a backend (the network one is refused), opens the
      printer, writes the status request, replies once and parses the
      answer. A `ValueError` from the parser leaves `result` unbound, so the
      next use of it raises `UnboundLocalError`. */
  function Status(printerId: Option<string>, backendId: Option<string>,
                  guess: Option<string> -> Outcome<string>, open: string -> Outcome<()>, write: Outcome<()>,
                  read: Outcome<Bytes>, interpret: Bytes -> Outcome<PrinterResponse>)
    : (r: (Outcome<PrinterResponse>, seq<Call>))
    ensures SelectStatusBackend(backendId, printerId, guess) == Returned(NetworkBackendName) ==>
              r == (Raised(NotImplementedError), [])
    ensures forall i :: 0 <= i < |r.1| && r.1[i].Write? ==> r.1[i].data == StatusRequest
    ensures r.0.Returned? ==>
              && SelectStatusBackend(backendId, printerId, guess).Returned?
              && var backend := SelectStatusBackend(backendId, printerId, guess).value;
              && backend != NetworkBackendName
              && r.1 == [Open(backend, printerId), Write(StatusRequest), Read]
              && read.Returned? && interpret(read.value) == r.0
    ensures var selected := SelectStatusBackend(backendId, printerId, guess);
            selected.Returned? && selected.value != NetworkBackendName ==>
              && (open(selected.value).Raised? ==>
                    r == (Raised(open(selected.value).exc), [Open(selected.value, printerId)]))
              && (open(selected.value).Returned? && write.Raised? ==>
                    r == (Raised(write.exc), [Open(selected.value, printerId), Write(StatusRequest)]))
              && (open(selected.value).Returned? && write.Returned? && read.Raised? ==>
                    r == (Raised(read.exc), [Open(selected.value, printerId), Write(StatusRequest), Read]))
              && (open(selected.value).Returned? && write.Returned? && read.Returned?
                  && interpret(read.value).Raised? && interpret(read.value).exc != ValueError ==>
                    r == (interpret(read.value), [Open(selected.value, printerId), Write(StatusRequest), Read]))
              && (open(selected.value).Returned? && write.Returned? && read.Returned? && interpret(read.value).Returned? ==>
                    r == (interpret(read.value), [Open(selected.value, printerId), Write(StatusRequest), Read]))
    ensures SelectStatusBackend(backendId, printerId, guess).Raised? ==>
              r == (Raised(SelectStatusBackend(backendId, printerId, guess).exc), [])
  {
    match SelectStatusBackend(backendId, printerId, guess)
    case Raised(e) => (Raised(e), [])
    case Returned(backend) =>
      if backend == NetworkBackendName then (Raised(NotImplementedError), [])
      else
        match open(backend)
        case Raised(e) => (Raised(e), [Open(backend, printerId)])
        case Returned(_) =>
          match write
          case Raised(e) => (Raised(e), [Open(backend, printerId), Write(StatusRequest)])
          case Returned(_) =>
            var calls := [Open(backend, printerId), Write(StatusRequest), Read];
            match read
            case Raised(e) => (Raised(e), calls)
            case Returned(data) =>
              match interpret(data)
              case Returned(result) => (Returned(result), calls)
              case Raised(e) => (Raised(if e == ValueError then UnboundLocalError else e), calls)
  }

  /** A status response that fails to parse surfaces as `UnboundLocalError`,
      not as the parser's `ValueError`. */
  lemma StatusUnparseable(printerId: Option<string>, backendId: Option<string>,
                          guess: Option<string> -> Outcome<string>, open: string -> Outcome<()>, write: Outcome<()>,
                          read: Outcome<Bytes>, interpret: Bytes -> Outcome<PrinterResponse>)
    requires SelectStatusBackend(backendId, printerId, guess).Returned?
    requires SelectStatusBackend(backendId, printerId, guess).value != NetworkBackendName
    requires open(SelectStatusBackend(backendId, printerId, guess).value).Returned?
    requires write.Returned? && read.Returned? && interpret(read.value) == Raised(ValueError)
    ensures Status(printerId, backendId, guess, open, write, read, interpret).0 == Raised(UnboundLocalError)
  {
  }

  /** `discover`: the listing of the named backend, "pyusb" when none is
      named (an empty name is used as given). */
  function Discover(backendId: Option<string>, listFor: string -> Outcome<seq<DeviceRecord>>)
    : (r: Outcome<seq<DeviceRecord>>)
    ensures backendId.None? ==> r == listFor(DefaultBackend)
    ensures backendId.Some? ==> r == listFor(backendId.value)
  {
    var backend := if backendId.None? then DefaultBackend else backendId.value;
    listFor(backend)
  }
}
