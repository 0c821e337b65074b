/** Decoding a sandbox result into a stream of runtime events, for any provider decoder that emits its
events through an event factory. */
module RuntimeDecoding {
  import opened Prelude
  import opened Records

  const MAX_RUNTIME_EVENTS := 4096

  datatype Payload =
    | Started
    | StdoutChunk(text: string)
    | StderrChunk(text: string)
    | Message(text: string)
    | ToolCall(name: string, parameters: string)
    | ArtifactClaim(path: string)
    | Completed(exitCode: int)
    | ProviderFailed(code: string, message: string)
    | RuntimeCancelled
  {
    predicate IsTerminal() {
      Completed? || ProviderFailed? || RuntimeCancelled?
    }
  }

  datatype RuntimeEvent = RuntimeEvent(runId: RunId, sequence: nat, payload: Payload)

  /** Why a stream is refused. */
  datatype Refusal =
    | ResultInvalid
    | CleanupNotDone
    | OutputTruncated
    | LineMalformed
    | FactoryClosed
    | DataAfterTermination
    | EnvelopeInvalid
    | OutOfBounds
    | WrongSource
    | ExitCodeOmitted
    | TerminalOmitted

  datatype Decoded<+T> = Accepted(value: T) | Refused(why: Refusal)
  {
    predicate IsFailure() {
      Refused?
    }
    function PropagateFailure<U>(): Decoded<U>
      requires Refused?
    {
      Refused(why)
    }
    function Extract(): T
      requires Accepted?
    {
      value
    }
  }

  /** What a provider decoder asks of its factory while it reads a line. */
  datatype Request = Emit(payload: Payload) | Fail(code: string, message: string)
  {
    function Asked(): Payload {
      match this
      case Emit(payload) => payload
      case Fail(code, message) => ProviderFailed(code, message)
    }
  }

  /** What a provider decoder makes of one line: nothing if it is malformed. */
  type Line = Option<seq<Request>>

  // ---------------------------------------------------------------- the factory

  class EventFactory {
    const runId: RunId
    const fits: Payload -> bool
    var nextSequence: nat
    var terminal: bool

    constructor (runId: RunId, fits: Payload -> bool)
      ensures this.runId == runId && this.fits == fits && nextSequence == 1 && !terminal
    {
      this.runId, this.fits := runId, fits;
      nextSequence, terminal := 1, false;
    }

    method Event(payload: Payload) returns (r: Decoded<RuntimeEvent>)
      modifies `nextSequence
      ensures r.Accepted? <==> !terminal && old(nextSequence) <= MAX_RUNTIME_EVENTS && fits(payload)
      ensures r.Accepted? ==>
                r.value == RuntimeEvent(runId, old(nextSequence), payload) && nextSequence == old(nextSequence) + 1
      ensures r.Refused? ==> nextSequence == old(nextSequence) && r.why in {FactoryClosed, OutOfBounds}
    {
      if terminal || nextSequence > MAX_RUNTIME_EVENTS { return Refused(FactoryClosed); }
      if !fits(payload) { return Refused(OutOfBounds); }
      r := Accepted(RuntimeEvent(runId, nextSequence, payload));
      nextSequence := nextSequence + 1;
    }

    /** Serves one request; only a failure makes the stream terminal. */
    method Serve(request: Request) returns (r: Decoded<RuntimeEvent>)
      modifies this
      ensures r.Accepted? <==> !old(terminal) && old(nextSequence) <= MAX_RUNTIME_EVENTS && fits(request.Asked())
      ensures r.Accepted? ==>
                r.value == RuntimeEvent(runId, old(nextSequence), request.Asked())
                  && nextSequence == old(nextSequence) + 1
      ensures terminal == (old(terminal) || (r.Accepted? && request.Fail?))
      ensures r.Refused? ==> nextSequence == old(nextSequence) && r.why in {FactoryClosed, OutOfBounds}
    {
      r := Event(request.Asked());
      if r.Accepted? && request.Fail? { terminal := true; }
    }

    /** The terminal event of the process, unless the provider has failed already. */
    method Finish(exitCode: int) returns (r: Decoded<Option<RuntimeEvent>>)
      modifies this
      ensures old(terminal) ==> r == Accepted(None)
      ensures !old(terminal) && r.Accepted? ==>
                r.value == Some(RuntimeEvent(runId, old(nextSequence), ExitPayload(exitCode)))
      ensures !old(terminal) ==>
                (r.Accepted? <==> old(nextSequence) <= MAX_RUNTIME_EVENTS && fits(ExitPayload(exitCode)))
      ensures r.Accepted? ==> terminal
      ensures r.Refused? ==> r.why in {FactoryClosed, OutOfBounds}
    {
      if terminal { return Accepted(None); }
      var e: RuntimeEvent;
      if exitCode == 0 {
        e :- Event(Completed(exitCode));
      } else {
        e :- Serve(Fail(EXIT_CODE_NAME, EXIT_MESSAGE));
      }
      terminal := true;
      return Accepted(Some(e));
    }
  }

  const EXIT_CODE_NAME := "provider_exit_nonzero"
  const EXIT_MESSAGE := "provider process exited unsuccessfully"

  function ExitPayload(exitCode: int): Payload {
    if exitCode == 0 then Completed(exitCode) else ProviderFailed(EXIT_CODE_NAME, EXIT_MESSAGE)
  }

  // ---------------------------------------------------------------- well-formed streams

  /** Events `1..n` of the run, at most 4096 of them, none after a terminal one. */
  ghost predicate WellFormed(id: RunId, events: seq<RuntimeEvent>) {
    && |events| <= MAX_RUNTIME_EVENTS
    && (forall i | 0 <= i < |events| :: events[i].runId == id && events[i].sequence == i + 1)
    && (forall i | 0 <= i < |events| - 1 :: !events[i].payload.IsTerminal())
  }

  predicate EndsTerminal(events: seq<RuntimeEvent>) {
    events != [] && events[|events| - 1].payload.IsTerminal()
  }

  /** A completion or cancellation that the process, not the provider, has to report. */
  predicate IsProcessEnd(payload: Payload) {
    payload.Completed? || payload.RuntimeCancelled?
  }

  datatype Source = FromStdout | FromStderr | FromFinish

  predicate SourceValid(result: SandboxResult, payload: Payload, source: Source) {
    match source
    case FromStdout => !IsProcessEnd(payload)
    case FromStderr => payload.StderrChunk?
    case FromFinish =>
      && result.exitCode.Some?
      && ((payload.Completed? && result.exitCode.value == 0 && payload.exitCode == 0)
          || (payload.ProviderFailed? && result.exitCode.value != 0))
  }

  /** `append_decoded_event`. */
  function Append(result: SandboxResult, fits: Payload -> bool, events: seq<RuntimeEvent>, e: RuntimeEvent,
                  source: Source): Decoded<seq<RuntimeEvent>> {
    if EndsTerminal(events) then Refused(DataAfterTermination)
    else if e.runId != result.runId || e.sequence != |events| + 1 || e.sequence > MAX_RUNTIME_EVENTS
      then Refused(EnvelopeInvalid)
    else if !fits(e.payload) then Refused(OutOfBounds)
    else if !SourceValid(result, e.payload, source) then Refused(WrongSource)
    else Accepted(events + [e])
  }

  // ---------------------------------------------------------------- the stream a result stands for

  function AskedIn(requests: seq<Request>): seq<Payload> {
    seq(|requests|, i requires 0 <= i < |requests| => requests[i].Asked())
  }

  /** Everything the provider asked for in its first `n` lines. */
  function Requests(lines: seq<Line>, n: nat): seq<Request>
    requires n <= |lines|
  {
    if n == 0 then [] else Requests(lines, n - 1) + (if lines[n - 1].Some? then lines[n - 1].value else [])
  }

  /** One chunk for every line of the error output. */
  function Chunks(lines: seq<Option<string>>, n: nat): seq<Request>
    requires n <= |lines|
  {
    if n == 0 then []
    else Chunks(lines, n - 1) + (if lines[n - 1].Some? then [Emit(StderrChunk(lines[n - 1].value))] else [])
  }

  /** Everything asked for: what the provider made of its output, then the error output. */
  function AllRequests(stdout: seq<Line>, stderr: seq<Option<string>>): seq<Request> {
    Requests(stdout, |stdout|) + Chunks(stderr, |stderr|)
  }

  ghost predicate AllDecoded<T>(lines: seq<Option<T>>) {
    forall i | 0 <= i < |lines| :: lines[i].Some?
  }

  function Payloads(events: seq<RuntimeEvent>): seq<Payload> {
    seq(|events|, i requires 0 <= i < |events| => events[i].payload)
  }

  /** The request may stand in a stream, and be followed by another one. */
  predicate MayStand(fits: Payload -> bool, request: Request, last: bool) {
    fits(request.Asked()) && !IsProcessEnd(request.Asked()) && (request.Asked().IsTerminal() ==> last)
  }

  /** A stream can be made of the requests: not too many, each within its bounds, no process end among them and
      nothing after a failure. */
  ghost predicate Streamable(fits: Payload -> bool, requests: seq<Request>) {
    && |requests| <= MAX_RUNTIME_EVENTS
    && forall i | 0 <= i < |requests| :: MayStand(fits, requests[i], i == |requests| - 1)
  }

  /** The provider has failed through its factory, which closes the stream. */
  predicate HasFailed(requests: seq<Request>) {
    requests != [] && requests[|requests| - 1].Fail?
  }

  /** The process can still report its exit: the provider has failed, or nothing terminal was emitted and there is
      room for the exit event. */
  predicate ExitFits(fits: Payload -> bool, requests: seq<Request>, exitCode: int) {
    || HasFailed(requests)
    || (&& |requests| < MAX_RUNTIME_EVENTS && fits(ExitPayload(exitCode))
        && (requests != [] ==> !requests[|requests| - 1].Asked().IsTerminal()))
  }

  /** The payloads of the accepted stream. */
  function Accepting(requests: seq<Request>, result: SandboxResult): seq<Payload> {
    AskedIn(requests) + if result.termination.Exited? && result.exitCode.Some? && !HasFailed(requests)
                        then [ExitPayload(result.exitCode.value)] else []
  }

  lemma {:induction false} PrefixIsStreamable(fits: Payload -> bool, part: seq<Request>, whole: seq<Request>)
    requires Streamable(fits, whole) && part <= whole
    ensures Streamable(fits, part)
  {
    forall i | 0 <= i < |part| ensures MayStand(fits, part[i], i == |part| - 1) {
      assert MayStand(fits, whole[i], i == |whole| - 1);
    }
  }

  lemma {:induction false} RequestsGrow(lines: seq<Line>, m: nat, n: nat)
    requires m <= n <= |lines|
    ensures Requests(lines, m) <= Requests(lines, n)
  {
    if m < n { RequestsGrow(lines, m, n - 1); }
  }

  lemma {:induction false} ChunksGrow(lines: seq<Option<string>>, m: nat, n: nat)
    requires m <= n <= |lines|
    ensures Chunks(lines, m) <= Chunks(lines, n)
  {
    if m < n { ChunksGrow(lines, m, n - 1); }
  }

  /** The factory and the stream agree on what was asked: the stream holds just that, the next number is due, and
      the factory is terminal exactly when the provider has failed. */
  ghost predicate InStep(factory: EventFactory, result: SandboxResult, events: seq<RuntimeEvent>, asked: seq<Request>)
    reads factory
  {
    && factory.runId == result.runId && factory.nextSequence == |events| + 1
    && WellFormed(result.runId, events) && Payloads(events) == AskedIn(asked)
    && Streamable(factory.fits, asked) && factory.terminal == HasFailed(asked)
  }

  lemma {:induction false} InStepIsStreamable(factory: EventFactory, result: SandboxResult, events: seq<RuntimeEvent>,
                                              asked: seq<Request>)
    requires InStep(factory, result, events, asked)
    ensures Streamable(factory.fits, asked)
  {
  }

  lemma {:induction false} OneMoreInStep(result: SandboxResult, fits: Payload -> bool, events: seq<RuntimeEvent>,
                                         asked: seq<Request>, request: Request, e: RuntimeEvent)
    requires WellFormed(result.runId, events) && Payloads(events) == AskedIn(asked) && Streamable(fits, asked)
    requires e == RuntimeEvent(result.runId, |events| + 1, request.Asked())
    ensures Streamable(fits, asked + [request]) <==>
            && |events| < MAX_RUNTIME_EVENTS && !EndsTerminal(events) && fits(e.payload) && !IsProcessEnd(e.payload)
    ensures Streamable(fits, asked + [request]) ==>
              WellFormed(result.runId, events + [e]) && Payloads(events + [e]) == AskedIn(asked + [request])
  {
    var longer := asked + [request];
    assert |events| == |Payloads(events)| == |AskedIn(asked)| == |asked|;
    assert forall i | 0 <= i < |asked| ::
             longer[i] == asked[i] && events[i].payload == Payloads(events)[i] == asked[i].Asked();
    assert longer[|asked|] == request;
    if Streamable(fits, longer) {
      assert MayStand(fits, longer[|asked|], true);
      assert asked != [] ==> MayStand(fits, longer[|asked| - 1], false);
      forall i | 0 <= i < |events| ensures !events[i].payload.IsTerminal() { assert MayStand(fits, longer[i], false); }
    }
    if |events| < MAX_RUNTIME_EVENTS && !EndsTerminal(events) && fits(e.payload) && !IsProcessEnd(e.payload) {
      forall i | 0 <= i < |longer| ensures MayStand(fits, longer[i], i == |asked|) {
        if i < |asked| { assert MayStand(fits, asked[i], i == |asked| - 1); }
      }
    }
  }

  /** One event from the factory into the stream; it fails exactly when the request may not stand there. */
  method Take(factory: EventFactory, result: SandboxResult, events: seq<RuntimeEvent>, request: Request, source: Source,
              ghost asked: seq<Request>)
    returns (r: Decoded<seq<RuntimeEvent>>)
    requires InStep(factory, result, events, asked) && !source.FromFinish?
    requires source.FromStderr? ==> request.Emit? && request.payload.StderrChunk?
    modifies factory
    ensures r.Accepted? <==> Streamable(factory.fits, asked + [request])
    ensures r.Accepted? ==> InStep(factory, result, r.value, asked + [request])
    ensures r.Refused? ==> r.why in {FactoryClosed, OutOfBounds, DataAfterTermination, WrongSource}
  {
    hide Streamable, Payloads, AskedIn;
    assert |events| <= MAX_RUNTIME_EVENTS;
    hide WellFormed;
    OneMoreInStep(result, factory.fits, events, asked, request,
                  RuntimeEvent(result.runId, |events| + 1, request.Asked()));
    if HasFailed(asked) { FailureEndsStream(events, asked); }
    var e :- factory.Serve(request);
    r := Append(result, factory.fits, events, e, source);
  }

  lemma {:induction false} SameLength(events: seq<RuntimeEvent>, asked: seq<Request>)
    requires Payloads(events) == AskedIn(asked)
    ensures |events| == |asked|
  {
    assert |Payloads(events)| == |AskedIn(asked)|;
  }

  lemma {:induction false} FailureEndsStream(events: seq<RuntimeEvent>, asked: seq<Request>)
    requires Payloads(events) == AskedIn(asked) && HasFailed(asked)
    ensures EndsTerminal(events)
  {
    SameLength(events, asked);
    var n := |events| - 1;
    assert events[n].payload == Payloads(events)[n] == AskedIn(asked)[n] == asked[n].Asked();
  }

  /** Why the provider's own doing can end the decoding. */
  predicate ProvidersFault(why: Refusal) {
    why in {LineMalformed, FactoryClosed, OutOfBounds, DataAfterTermination, WrongSource}
  }

  method TakeAll(factory: EventFactory, result: SandboxResult, events: seq<RuntimeEvent>, requests: seq<Request>,
                 ghost asked: seq<Request>)
    returns (r: Decoded<seq<RuntimeEvent>>)
    requires InStep(factory, result, events, asked)
    modifies factory
    ensures r.Accepted? <==> Streamable(factory.fits, asked + requests)
    ensures r.Accepted? ==> InStep(factory, result, r.value, asked + requests)
    ensures r.Refused? ==> ProvidersFault(r.why)
  {
    hide InStep, Streamable;
    var taken := events;
    assert asked + requests[..0] == asked;
    for j := 0 to |requests|
      invariant InStep(factory, result, taken, asked + requests[..j])
    {
      assert asked + requests[..j + 1] == asked + requests[..j] + [requests[j]];
      var next := Take(factory, result, taken, requests[j], FromStdout, asked + requests[..j]);
      if next.Refused? {
        if Streamable(factory.fits, asked + requests) {
          PrefixIsStreamable(factory.fits, asked + requests[..j + 1], asked + requests);
        }
        return Refused(next.why);
      }
      taken := next.value;
    }
    assert requests[..|requests|] == requests;
    InStepIsStreamable(factory, result, taken, asked + requests);
    return Accepted(taken);
  }

  method TakeStdout(factory: EventFactory, result: SandboxResult,
                    stdout: seq<Line>) returns (r: Decoded<seq<RuntimeEvent>>)
    requires InStep(factory, result, [], [])
    modifies factory
    ensures r.Accepted? <==> AllDecoded(stdout) && Streamable(factory.fits, Requests(stdout, |stdout|))
    ensures r.Accepted? ==> InStep(factory, result, r.value, Requests(stdout, |stdout|))
    ensures r.Refused? ==> ProvidersFault(r.why)
  {
    hide InStep, Streamable;
    var events: seq<RuntimeEvent> := [];
    for i := 0 to |stdout|
      invariant InStep(factory, result, events, Requests(stdout, i)) && forall k | 0 <= k < i :: stdout[k].Some?
    {
      if stdout[i].None? { return Refused(LineMalformed); }
      var next := TakeAll(factory, result, events, stdout[i].value, Requests(stdout, i));
      if next.Refused? {
        RequestsGrow(stdout, i + 1, |stdout|);
        if Streamable(factory.fits, Requests(stdout, |stdout|)) {
          PrefixIsStreamable(factory.fits, Requests(stdout, i + 1), Requests(stdout, |stdout|));
        }
        return Refused(next.why);
      }
      events := next.value;
    }
    InStepIsStreamable(factory, result, events, Requests(stdout, |stdout|));
    return Accepted(events);
  }

  method TakeStderr(factory: EventFactory, result: SandboxResult, decoded: seq<RuntimeEvent>,
                    stderr: seq<Option<string>>, ghost asked: seq<Request>)
    returns (r: Decoded<seq<RuntimeEvent>>)
    requires InStep(factory, result, decoded, asked)
    modifies factory
    ensures r.Accepted? <==> AllDecoded(stderr) && Streamable(factory.fits, asked + Chunks(stderr, |stderr|))
    ensures r.Accepted? ==> InStep(factory, result, r.value, asked + Chunks(stderr, |stderr|))
    ensures r.Refused? ==> ProvidersFault(r.why)
  {
    hide InStep, Streamable;
    var events := decoded;
    assert asked + Chunks(stderr, 0) == asked;
    for i := 0 to |stderr|
      invariant InStep(factory, result, events, asked + Chunks(stderr, i)) && forall k | 0 <= k < i :: stderr[k].Some?
    {
      if stderr[i].None? { return Refused(LineMalformed); }
      var chunk := Emit(StderrChunk(stderr[i].value));
      assert asked + Chunks(stderr, i + 1) == asked + Chunks(stderr, i) + [chunk];
      var next := Take(factory, result, events, chunk, FromStderr, asked + Chunks(stderr, i));
      if next.Refused? {
        ChunksGrow(stderr, i + 1, |stderr|);
        if Streamable(factory.fits, asked + Chunks(stderr, |stderr|)) {
          PrefixIsStreamable(factory.fits, asked + Chunks(stderr, i + 1), asked + Chunks(stderr, |stderr|));
        }
        return Refused(next.why);
      }
      events := next.value;
    }
    InStepIsStreamable(factory, result, events, asked + Chunks(stderr, |stderr|));
    return Accepted(events);
  }

  /** The stream ends in one terminal event: a completion exactly when the process exited with 0 and
      the provider reported no failure. */
  ghost predicate EndsWith(events: seq<RuntimeEvent>, exitCode: int) {
    && EndsTerminal(events) && !events[|events| - 1].payload.RuntimeCancelled?
    && (events[|events| - 1].payload == Completed(0) <==>
        exitCode == 0 && forall i | 0 <= i < |events| :: !events[i].payload.ProviderFailed?)
  }

  method TakeExit(factory: EventFactory, result: SandboxResult, decoded: seq<RuntimeEvent>, exitCode: int,
                  ghost asked: seq<Request>)
    returns (r: Decoded<seq<RuntimeEvent>>)
    requires InStep(factory, result, decoded, asked) && result.exitCode == Some(exitCode) && result.termination.Exited?
    modifies factory
    ensures r.Accepted? <==> ExitFits(factory.fits, asked, exitCode)
    ensures r.Accepted? ==> WellFormed(result.runId, r.value) && EndsWith(r.value, exitCode)
    ensures r.Accepted? ==> Payloads(r.value) == Accepting(asked, result)
    ensures r.Refused? ==> ProvidersFault(r.why)
  {
    SameLength(decoded, asked);
    assert forall i | 0 <= i < |decoded| :: decoded[i].payload == Payloads(decoded)[i] == asked[i].Asked();
    assert forall i | 0 <= i < |asked| :: MayStand(factory.fits, asked[i], i == |asked| - 1);
    hide Streamable;
    var finished := factory.Finish(exitCode);
    if finished.Refused? { return Refused(finished.why); }
    var last := finished.value;
    if last.Some? {
      var events :- Append(result, factory.fits, decoded, last.value, FromFinish);
      assert forall i | 0 <= i < |decoded| :: events[i] == decoded[i] && !decoded[i].payload.IsTerminal();
      assert Payloads(events) == Payloads(decoded) + [ExitPayload(exitCode)];
      return Accepted(events);
    }
    if !EndsTerminal(decoded) { return Refused(TerminalOmitted); }
    return Accepted(decoded);
  }

  /** When a result is accepted: it is valid, cleaned up and complete, every line was decoded, a stream can be made
      of what was asked for, and an exited process can report its exit. */
  ghost predicate Acceptable(result: SandboxResult, fits: Payload -> bool, stdout: seq<Line>,
                             stderr: seq<Option<string>>) {
    && result.IsValid() && result.cleanup.CleanupSucceeded? && !result.truncated
    && AllDecoded(stdout) && AllDecoded(stderr) && Streamable(fits, AllRequests(stdout, stderr))
    && (result.termination.Exited? ==>
          result.exitCode.Some? && ExitFits(fits, AllRequests(stdout, stderr), result.exitCode.value))
  }

  /** `decode_sandbox_result` with a fresh decoder. It accepts exactly the acceptable results. An accepted stream is
      well formed, holds exactly what was asked for, in order, and for an exited process ends as its exit code and
      the provider's failures demand. No refusal blames the factory: the numbering, exit code and terminal event
      that it owes are never missing. */
  method DecodeSandboxResult(result: SandboxResult, fits: Payload -> bool, stdout: seq<Line>,
                             stderr: seq<Option<string>>)
    returns (r: Decoded<seq<RuntimeEvent>>)
    ensures r.Accepted? <==> Acceptable(result, fits, stdout, stderr)
    ensures r.Accepted? ==> WellFormed(result.runId, r.value)
    ensures r.Accepted? ==> Payloads(r.value) == Accepting(AllRequests(stdout, stderr), result)
    ensures r.Accepted? && result.termination.Exited? ==>
              result.exitCode.Some? && EndsWith(r.value, result.exitCode.value)
    ensures r.Refused? ==> ProvidersFault(r.why) || r.why in {ResultInvalid, CleanupNotDone, OutputTruncated}
  {
    hide Streamable, ExitFits, Requests, Chunks, AskedIn, Payloads, EndsWith;
    if !result.IsValid() { return Refused(ResultInvalid); }
    if !result.cleanup.CleanupSucceeded? { return Refused(CleanupNotDone); }
    if result.truncated { return Refused(OutputTruncated); }
    var factory := new EventFactory(result.runId, fits);
    NothingInStep(factory, result);
    ghost var asked := Requests(stdout, |stdout|);
    var read := TakeStdout(factory, result, stdout);
    if read.Refused? {
      if Streamable(fits, AllRequests(stdout, stderr)) { PrefixIsStreamable(fits, asked, AllRequests(stdout, stderr)); }
      return Refused(read.why);
    }
    var events :- TakeStderr(factory, result, read.value, stderr, asked);
    if !result.termination.Exited? { return Accepted(events); }
    if result.exitCode.None? { return Refused(ExitCodeOmitted); }
    r := TakeExit(factory, result, events, result.exitCode.value, AllRequests(stdout, stderr));
  }

  lemma {:induction false} NothingInStep(factory: EventFactory, result: SandboxResult)
    requires factory.runId == result.runId && factory.nextSequence == 1 && !factory.terminal
    ensures InStep(factory, result, [], [])
  {
  }
}
