/** The earlier connection-oriented provider: one duplex connection carries
    a sequence of requests, each answered in place on the same connection,
    until the requester sends an empty request, the input ends, a protocol
    violation stops the loop or an exception escapes it. */
module Legacy {
  import opened Wrappers
  import opened Protocol
  import Jobs

  /** The failure classes reported with `providerFailJob`. */
  datatype FailureReason = UnhandledError | ProtocolRequestBody | ProtocolModelId | OpenAIError

  /** The numeric value of the enum member on the wire. */
  function ReasonCode(r: FailureReason): (code: nat)
    ensures code < 4
    ensures code == 0 <==> r == UnhandledError
  {
    match r
    case UnhandledError => 0
    case ProtocolRequestBody => 1
    case ProtocolModelId => 2
    case OpenAIError => 3
  }

  /** Distinct failure classes travel as distinct codes. */
  lemma {:induction false} ReasonCodesDistinct(a: FailureReason, b: FailureReason)
    ensures ReasonCode(a) == ReasonCode(b) <==> a == b
  {
    match a {
      case UnhandledError => assert ReasonCode(a) == 0;
      case ProtocolRequestBody => assert ReasonCode(a) == 1;
      case ProtocolModelId => assert ReasonCode(a) == 2;
      case OpenAIError => assert ReasonCode(a) == 3;
    }
  }

  /** The `reason` text of a failed job: the schema issues, the expected
      and received model ids, or the upstream error's message. */
  datatype FailDetail =
    | Issues(text: string)
    | ModelMismatch(expected: string, received: Option<string>)
    | ErrorMessage(text: string)

  /** The marketplace calls of the legacy loop; a failure class travels as
      its numeric code. */
  datatype LegacyCall =
    | CreateJob(connectionId: int, request: Json)
    | FailJob(databaseJobId: int, reason: FailDetail, reasonClass: nat)
    | CompleteJob(databaseJobId: int, balanceDelta: string, publicPayload: PublicPayload)

  /** The connection event: its id and the offer payload it was opened for. */
  datatype ConnectionData = ConnectionData(connectionId: int, offer: OfferPayload)

  /** The services the loop calls out to: the request-body schema check
      (issues as text on failure) and the cost function. */
  datatype Services = Services(
    validate: Json -> Result<RequestBody, string>,
    calcCost: (OfferPayload, Usage) -> string)

  /** One request read from the connection, with everything the outside
      world answers while it is served: the ids `providerCreateJob` returns,
      the upstream behaviour of either variant, and the `completed_at_sync`
      that `providerCompleteJob` returns. */
  datatype Exchange = Exchange(
    request: Json,
    databaseJobId: int,
    providerJobId: string,
    createdAtSync: int,
    streamed: Jobs.StreamingUpstream,
    answered: Jobs.NonStreamingUpstream,
    completedAtSync: int)

  /** What one read of the connection yields: nothing (end of input) or a request. */
  datatype Read = EndOfInput | Received(exchange: Exchange)

  /** The read that ends the loop: end of input, or a falsy request. */
  predicate EndsLoop(r: Read) {
    r.EndOfInput? || !Truthy(r.exchange.request)
  }

  /** Why an exception escapes the loop: `"prompt" in` on a non-object,
      the upstream iterator throwing mid-stream, or `assert(usage)`. */
  datatype LegacyFault = NotAnObject | StreamBroke(error: Jobs.UpstreamError) | NoUsage

  /** After one request: read the next one, leave the loop, or throw. */
  datatype Next = Continue | Stop | Crash(fault: LegacyFault)

  /** What serving one request writes, calls and decides. */
  datatype Step = Step(frames: seq<Frame>, calls: seq<LegacyCall>, next: Next)

  /** What a whole connection writes and calls, and how the loop ends. */
  datatype Outcome = Dropped | Crashed(fault: LegacyFault)
  datatype Session = Session(frames: seq<Frame>, calls: seq<LegacyCall>, outcome: Outcome)

  const InvalidBodyMessage := "Invalid OpenAI Request Body"
  const ModelMismatchMessage := "Model ID Mismatch"
  const InternalErrorMessage := "Internal Server Error"

  function ViolationStep(create: seq<LegacyCall>, x: Exchange, reason: FailDetail, cls: FailureReason, message: string): Step {
    Step([Prologue(ProtocolViolation, Message(message))], create + [FailJob(x.databaseJobId, reason, ReasonCode(cls))], Stop)
  }

  function ServiceErrorStep(written: seq<Frame>, create: seq<LegacyCall>, x: Exchange, e: Jobs.UpstreamError): Step {
    Step(written + [Prologue(ServiceError, Message(InternalErrorMessage))],
         create + [FailJob(x.databaseJobId, ErrorMessage(e.message), ReasonCode(OpenAIError))], Continue)
  }

  function JobPrologue(x: Exchange): Frame {
    Prologue(Ok, JobInfo(x.providerJobId, x.createdAtSync))
  }

  /** Serving one truthy request. The job is created first, whatever the
      request holds; then the body is checked, then the model id, then the
      variant the body's `stream` selects is served. Any upstream error on
      the call itself fails the job and keeps the connection; a stream that
      breaks or a response without usage throws. */
  function ServeStep(conn: ConnectionData, svc: Services, x: Exchange): Step {
    var create := [CreateJob(conn.connectionId, x.request)];
    if !SupportsIn(x.request) then Step([], create, Crash(NotAnObject))
    else match svc.validate(x.request)
      case Failure(issues) =>
        ViolationStep(create, x, Issues(issues), ProtocolRequestBody, InvalidBodyMessage)
      case Success(body) =>
        if body.ModelId() != Some(conn.offer.modelId) then
          ViolationStep(create, x, ModelMismatch(conn.offer.modelId, body.ModelId()), ProtocolModelId, ModelMismatchMessage)
        else if body.Streams() then StreamingStep(conn, svc, x, body, create)
        else NonStreamingStep(conn, svc, x, body, create)
  }

  /** The streaming variant: the upstream call comes before the prologue. */
  function StreamingStep(conn: ConnectionData, svc: Services, x: Exchange, body: RequestBody, create: seq<LegacyCall>): Step {
    match x.streamed
    case StreamRefused(e) => ServiceErrorStep([], create, x, e)
    case Streamed(chunks, end) =>
      var written := [JobPrologue(x)] + ChunkFrames(chunks);
      match end
      case FailedAfter(e) => Step(written, create, Crash(StreamBroke(e)))
      case Exhausted =>
        match LastUsage(chunks)
        case None => Step(written, create, Crash(NoUsage))
        case Some(u) =>
          var payload := BuildPublicPayload(body, u);
          var delta := svc.calcCost(conn.offer, u);
          Step(written + [StreamingEpilogue(Some(delta), payload, x.completedAtSync)],
               create + [CompleteJob(x.databaseJobId, delta, payload)], Continue)
  }

  /** The non-streaming variant: the prologue comes before the upstream call. */
  function NonStreamingStep(conn: ConnectionData, svc: Services, x: Exchange, body: RequestBody, create: seq<LegacyCall>): Step {
    match x.answered
    case CallRefused(e) => ServiceErrorStep([JobPrologue(x)], create, x, e)
    case Answered(response) =>
      var written := [JobPrologue(x), ResponseFrame(response)];
      match response.usage
      case None => Step(written, create, Crash(NoUsage))
      case Some(u) =>
        var payload := BuildPublicPayload(body, u);
        var delta := svc.calcCost(conn.offer, u);
        Step(written + [NonStreamingEpilogue(delta, payload, x.completedAtSync)],
             create + [CompleteJob(x.databaseJobId, delta, payload)], Continue)
  }

  /** The whole connection loop over the reads it will see; running out of
      reads is the end of input. */
  function Serve(conn: ConnectionData, svc: Services, incoming: seq<Read>): Session
    decreases |incoming|
  {
    if incoming == [] || EndsLoop(incoming[0]) then Session([], [], Dropped)
    else After(ServeStep(conn, svc, incoming[0].exchange), Serve(conn, svc, incoming[1..]))
  }

  /** One served request followed by the rest of the session, which only
      happens when the request returned to the loop. */
  function After(s: Step, rest: Session): Session {
    match s.next
    case Continue => Session(s.frames + rest.frames, s.calls + rest.calls, rest.outcome)
    case Stop => Session(s.frames, s.calls, Dropped)
    case Crash(f) => Session(s.frames, s.calls, Crashed(f))
  }

  /** Nothing after the read that ends the loop is ever consumed. */
  lemma {:induction false} ReadsAfterEndAreIgnored(conn: ConnectionData, svc: Services, incoming: seq<Read>, more: seq<Read>)
    requires incoming != [] && EndsLoop(incoming[|incoming| - 1])
    ensures Serve(conn, svc, incoming + more) == Serve(conn, svc, incoming)
    decreases |incoming|
  {
    assert (incoming + more)[0] == incoming[0];
    if !EndsLoop(incoming[0]) {
      assert |incoming| > 1;
      assert (incoming + more)[1..] == incoming[1..] + more;
      ReadsAfterEndAreIgnored(conn, svc, incoming[1..], more);
    }
  }

  /** Every job a step fails carries a class the marketplace can tell
      apart, never UnhandledError, and the class agrees with the detail:
      schema issues, a model mismatch, or an upstream error message. */
  lemma StepFailuresAreClassified(conn: ConnectionData, svc: Services, x: Exchange)
    ensures forall c :: c in ServeStep(conn, svc, x).calls && c.FailJob? ==>
      && c.reasonClass != ReasonCode(UnhandledError)
      && (c.reasonClass == ReasonCode(ProtocolRequestBody) <==> c.reason.Issues?)
      && (c.reasonClass == ReasonCode(ProtocolModelId) <==> c.reason.ModelMismatch?)
      && (c.reasonClass == ReasonCode(OpenAIError) <==> c.reason.ErrorMessage?)
  {
  }

  /** A truthy request always creates a marketplace job before anything is
      checked, even when it is then refused as a protocol violation. */
  lemma JobCreatedBeforeValidation(conn: ConnectionData, svc: Services, x: Exchange, rest: seq<Read>)
    requires Truthy(x.request)
    ensures var s := Serve(conn, svc, [Received(x)] + rest);
      s.calls != [] && s.calls[0] == CreateJob(conn.connectionId, x.request)
  {
    var incoming := [Received(x)] + rest;
    assert incoming[0] == Received(x);
  }

  /** A body the schema refuses fails the job with ProtocolRequestBody,
      writes one ProtocolViolation prologue and ends the connection, whatever
      follows on it. */
  lemma InvalidBodyEndsConnection(conn: ConnectionData, svc: Services, x: Exchange, rest: seq<Read>, issues: string)
    requires Truthy(x.request) && SupportsIn(x.request) && svc.validate(x.request) == Failure(issues)
    ensures Serve(conn, svc, [Received(x)] + rest) ==
      Session([Prologue(ProtocolViolation, Message(InvalidBodyMessage))],
              [CreateJob(conn.connectionId, x.request), FailJob(x.databaseJobId, Issues(issues), ReasonCode(ProtocolRequestBody))],
              Dropped)
  {
    var incoming := [Received(x)] + rest;
    assert incoming[0] == Received(x);
  }

  /** A valid body naming another model than the offer's fails the job with
      ProtocolModelId, writes one ProtocolViolation prologue and ends the
      connection. */
  lemma ModelMismatchEndsConnection(conn: ConnectionData, svc: Services, x: Exchange, rest: seq<Read>, body: RequestBody)
    requires Truthy(x.request) && SupportsIn(x.request) && svc.validate(x.request) == Success(body)
    requires body.ModelId() != Some(conn.offer.modelId)
    ensures Serve(conn, svc, [Received(x)] + rest) ==
      Session([Prologue(ProtocolViolation, Message(ModelMismatchMessage))],
              [CreateJob(conn.connectionId, x.request),
               FailJob(x.databaseJobId, ModelMismatch(conn.offer.modelId, body.ModelId()), ReasonCode(ProtocolModelId))],
              Dropped)
  {
    var incoming := [Received(x)] + rest;
    assert incoming[0] == Received(x);
  }

  /** Whether an exchange reaches the upstream: its request is an object
      the schema accepts, for the offer's model. */
  predicate Accepted(conn: ConnectionData, svc: Services, x: Exchange) {
    && SupportsIn(x.request)
    && svc.validate(x.request).Success?
    && svc.validate(x.request).value.ModelId() == Some(conn.offer.modelId)
  }

  /** An upstream error on the call itself, of either kind, fails the job
      with OpenAIError and keeps the connection for the next request. A
      non-streaming request has already written its Ok prologue by then,
      so the requester sees two prologues. */
  lemma UpstreamErrorKeepsConnection(conn: ConnectionData, svc: Services, x: Exchange, rest: seq<Read>)
    requires Truthy(x.request) && Accepted(conn, svc, x)
    requires var body := svc.validate(x.request).value;
      if body.Streams() then x.streamed.StreamRefused? else x.answered.CallRefused?
    ensures var body := svc.validate(x.request).value;
      var e := if body.Streams() then x.streamed.error else x.answered.error;
      var written := if body.Streams() then [] else [JobPrologue(x)];
      var tail := Serve(conn, svc, rest);
      Serve(conn, svc, [Received(x)] + rest) ==
        Session(written + [Prologue(ServiceError, Message(InternalErrorMessage))] + tail.frames,
                [CreateJob(conn.connectionId, x.request), FailJob(x.databaseJobId, ErrorMessage(e.message), ReasonCode(OpenAIError))] + tail.calls,
                tail.outcome)
  {
    var incoming := [Received(x)] + rest;
    assert incoming[0] == Received(x) && incoming[1..] == rest;
  }

  /** A request is charged exactly when the upstream delivered usage: the
      step calls `providerCompleteJob` iff it continues without an upstream
      error, and then its last frame is the epilogue carrying that charge. */
  lemma ChargedIffUsage(conn: ConnectionData, svc: Services, x: Exchange)
    requires Accepted(conn, svc, x)
    ensures var body := svc.validate(x.request).value;
      var s := ServeStep(conn, svc, x);
      var usage := if body.Streams() then
          (if x.streamed.Streamed? && x.streamed.end.Exhausted? then LastUsage(x.streamed.chunks) else None)
        else (if x.answered.Answered? then x.answered.response.usage else None);
      && (s.calls[|s.calls| - 1].CompleteJob? <==> usage.Some?)
      && (usage.Some? ==>
            var delta := svc.calcCost(conn.offer, usage.value);
            var payload := BuildPublicPayload(body, usage.value);
            && s.calls == [CreateJob(conn.connectionId, x.request), CompleteJob(x.databaseJobId, delta, payload)]
            && s.next == Continue
            && s.frames[|s.frames| - 1] ==
                 (if body.Streams() then StreamingEpilogue(Some(delta), payload, x.completedAtSync)
                  else NonStreamingEpilogue(delta, payload, x.completedAtSync)))
  {
  }

  /** A successful streaming request writes the Ok prologue with the job's
      ids, every chunk in order, then the epilogue. */
  lemma StreamingSuccessFrames(conn: ConnectionData, svc: Services, x: Exchange, u: Usage)
    requires Accepted(conn, svc, x) && svc.validate(x.request).value.Streams()
    requires x.streamed.Streamed? && x.streamed.end.Exhausted? && LastUsage(x.streamed.chunks) == Some(u)
    ensures var fs := ServeStep(conn, svc, x).frames;
      var chunks := x.streamed.chunks;
      && |fs| == |chunks| + 2
      && fs[0] == Prologue(Ok, JobInfo(x.providerJobId, x.createdAtSync))
      && (forall i :: 0 <= i < |chunks| ==> fs[i + 1] == ChunkFrame(chunks[i]))
      && fs[|fs| - 1].StreamingEpilogue?
      && Jobs.WellOrdered(fs)
  {
    var chunks := x.streamed.chunks;
    var body := svc.validate(x.request).value;
    var payload := BuildPublicPayload(body, u);
    var epilogue := StreamingEpilogue(Some(svc.calcCost(conn.offer, u)), payload, x.completedAtSync);
    var fs := [JobPrologue(x)] + ChunkFrames(chunks) + [epilogue];
    assert ServeStep(conn, svc, x).frames == fs;
    forall i | 0 <= i < |chunks|
      ensures fs[i + 1] == ChunkFrame(chunks[i])
    {
    }
    assert forall i :: 0 < i < |fs| ==> !fs[i].Prologue? by {
      forall i | 0 < i < |fs| ensures !fs[i].Prologue? {
        if i < |fs| - 1 { assert fs[i] == ChunkFrame(chunks[i - 1]); }
      }
    }
    assert forall i :: 0 <= i < |fs| - 1 ==> !Jobs.IsEpilogue(fs[i]) by {
      forall i | 0 <= i < |fs| - 1 ensures !Jobs.IsEpilogue(fs[i]) {
        if i > 0 { assert fs[i] == ChunkFrame(chunks[i - 1]); }
      }
    }
  }

  /** Every request that returns to the loop wrote exactly one prologue,
      first, except a non-streaming request whose upstream call failed:
      that one wrote an Ok prologue and then a ServiceError prologue. */
  lemma ContinuingStepsAreWellOrdered(conn: ConnectionData, svc: Services, x: Exchange)
    requires ServeStep(conn, svc, x).next == Continue
    ensures var s := ServeStep(conn, svc, x);
      var body := svc.validate(x.request).value;
      if !body.Streams() && x.answered.CallRefused? then
        s.frames == [JobPrologue(x), Prologue(ServiceError, Message(InternalErrorMessage))]
        && !Jobs.WellOrdered(s.frames)
      else Jobs.WellOrdered(s.frames)
  {
    var s := ServeStep(conn, svc, x);
    var body := svc.validate(x.request).value;
    if body.Streams() && x.streamed.Streamed? {
      StreamingSuccessFrames(conn, svc, x, LastUsage(x.streamed.chunks).value);
    } else if !body.Streams() && x.answered.CallRefused? {
      assert s.frames[1].Prologue?;
    }
  }

  /** `onConnection` serving one request, writing frames as it goes. The
      streamed chunks are forwarded one at a time while the last usage seen
      is kept. */
  method ServeRequest(conn: ConnectionData, svc: Services, x: Exchange)
    returns (frames: seq<Frame>, calls: seq<LegacyCall>, next: Next)
    ensures Step(frames, calls, next) == ServeStep(conn, svc, x)
  {
    calls := [CreateJob(conn.connectionId, x.request)];
    frames := [];
    if !SupportsIn(x.request) {
      return frames, calls, Crash(NotAnObject);
    }
    var parsed := svc.validate(x.request);
    if parsed.Failure? {
      calls := calls + [FailJob(x.databaseJobId, Issues(parsed.error), ReasonCode(ProtocolRequestBody))];
      frames := frames + [Prologue(ProtocolViolation, Message(InvalidBodyMessage))];
      return frames, calls, Stop;
    }
    var body := parsed.value;
    if body.ModelId() != Some(conn.offer.modelId) {
      calls := calls + [FailJob(x.databaseJobId, ModelMismatch(conn.offer.modelId, body.ModelId()), ReasonCode(ProtocolModelId))];
      frames := frames + [Prologue(ProtocolViolation, Message(ModelMismatchMessage))];
      return frames, calls, Stop;
    }
    if body.Streams() {
      frames, calls, next := ServeStreaming(conn, svc, x, body, calls);
    } else {
      frames, calls, next := ServeNonStreaming(conn, svc, x, body, calls);
    }
  }

  /** The streaming branch of one request. */
  method ServeStreaming(conn: ConnectionData, svc: Services, x: Exchange, body: RequestBody, create: seq<LegacyCall>)
    returns (frames: seq<Frame>, calls: seq<LegacyCall>, next: Next)
    ensures Step(frames, calls, next) == StreamingStep(conn, svc, x, body, create)
  {
    calls := create;
    if x.streamed.StreamRefused? {
      calls := calls + [FailJob(x.databaseJobId, ErrorMessage(x.streamed.error.message), ReasonCode(OpenAIError))];
      frames := [Prologue(ServiceError, Message(InternalErrorMessage))];
      return frames, calls, Continue;
    }
    var chunks, usage;
    frames, chunks, usage := ForwardChunks(x, x.streamed.chunks);
    if x.streamed.end.FailedAfter? {
      return frames, calls, Crash(StreamBroke(x.streamed.end.error));
    }
    if usage.None? {
      return frames, calls, Crash(NoUsage);
    }
    var payload := BuildPublicPayload(body, usage.value);
    var delta := svc.calcCost(conn.offer, usage.value);
    calls := calls + [CompleteJob(x.databaseJobId, delta, payload)];
    frames := frames + [StreamingEpilogue(Some(delta), payload, x.completedAtSync)];
    next := Continue;
  }

  /** The Ok prologue, then each chunk as it arrives, keeping the last
      usage seen. */
  method ForwardChunks(x: Exchange, delivered: seq<Chunk>)
    returns (frames: seq<Frame>, chunks: seq<Chunk>, usage: Option<Usage>)
    ensures frames == [JobPrologue(x)] + ChunkFrames(delivered)
    ensures chunks == delivered && usage == LastUsage(delivered)
  {
    frames := [JobPrologue(x)];
    chunks := [];
    usage := None;
    var i := 0;
    while i < |delivered|
      invariant 0 <= i <= |delivered|
      invariant chunks == delivered[..i]
      invariant usage == LastUsage(chunks)
      invariant frames == [JobPrologue(x)] + ChunkFrames(chunks)
    {
      var chunk := delivered[i];
      ChunkFramesSnoc(chunks, chunk);
      LastUsageSnoc(chunks, chunk);
      chunks := chunks + [chunk];
      frames := frames + [ChunkFrame(chunk)];
      if chunk.usage.Some? {
        usage := chunk.usage;
      }
      i := i + 1;
      assert chunks == delivered[..i];
    }
    assert delivered[..i] == delivered;
  }

  /** The non-streaming branch of one request. */
  method ServeNonStreaming(conn: ConnectionData, svc: Services, x: Exchange, body: RequestBody, create: seq<LegacyCall>)
    returns (frames: seq<Frame>, calls: seq<LegacyCall>, next: Next)
    ensures Step(frames, calls, next) == NonStreamingStep(conn, svc, x, body, create)
  {
    calls := create;
    frames := [JobPrologue(x)];
    if x.answered.CallRefused? {
      calls := calls + [FailJob(x.databaseJobId, ErrorMessage(x.answered.error.message), ReasonCode(OpenAIError))];
      frames := frames + [Prologue(ServiceError, Message(InternalErrorMessage))];
      return frames, calls, Continue;
    }
    var response := x.answered.response;
    frames := frames + [ResponseFrame(response)];
    if response.usage.None? {
      return frames, calls, Crash(NoUsage);
    }
    var payload := BuildPublicPayload(body, response.usage.value);
    var delta := svc.calcCost(conn.offer, response.usage.value);
    calls := calls + [CompleteJob(x.databaseJobId, delta, payload)];
    frames := frames + [NonStreamingEpilogue(delta, payload, x.completedAtSync)];
    next := Continue;
  }

  /** Appending a chunk appends its frame. */
  lemma ChunkFramesSnoc(chunks: seq<Chunk>, c: Chunk)
    ensures ChunkFrames(chunks + [c]) == ChunkFrames(chunks) + [ChunkFrame(c)]
  {
    var r := ChunkFrames(chunks + [c]);
    assert |r| == |chunks| + 1;
    forall i | 0 <= i < |r| ensures r[i] == (ChunkFrames(chunks) + [ChunkFrame(c)])[i] {
      if i < |chunks| { assert (chunks + [c])[i] == chunks[i]; }
    }
  }

  /** Appending a chunk replaces the last usage when that chunk carries one. */
  lemma LastUsageSnoc(chunks: seq<Chunk>, c: Chunk)
    ensures LastUsage(chunks + [c]) == if c.usage.Some? then c.usage else LastUsage(chunks)
  {
    assert (chunks + [c])[..|chunks|] == chunks;
  }

  /** The loop's bookkeeping: what has been written and called so far,
      followed by the session of the remaining reads, is the whole session. */
  ghost predicate ServedSoFar(conn: ConnectionData, svc: Services, incoming: seq<Read>, i: nat,
                              frames: seq<Frame>, calls: seq<LegacyCall>)
    requires i <= |incoming|
  {
    var tail := Serve(conn, svc, incoming[i..]);
    Serve(conn, svc, incoming) == Session(frames + tail.frames, calls + tail.calls, tail.outcome)
  }

  /** The session after read `i` is that request's step followed, when it
      returns to the loop, by the session of the reads after it. */
  lemma ServeCons(conn: ConnectionData, svc: Services, incoming: seq<Read>, i: nat)
    requires i < |incoming| && !EndsLoop(incoming[i])
    ensures Serve(conn, svc, incoming[i..]) ==
      After(ServeStep(conn, svc, incoming[i].exchange), Serve(conn, svc, incoming[i + 1..]))
  {
    assert incoming[i..][0] == incoming[i] && incoming[i..][1..] == incoming[i + 1..];
  }

  /** Prefixing what was already written and called to `After`. */
  lemma AfterPrefix(frames: seq<Frame>, calls: seq<LegacyCall>, s: Step, tail: Session)
    ensures var whole := After(s, tail);
      && (s.next == Continue ==>
            Session(frames + whole.frames, calls + whole.calls, whole.outcome) ==
            Session((frames + s.frames) + tail.frames, (calls + s.calls) + tail.calls, tail.outcome))
      && (s.next == Stop ==>
            Session(frames + whole.frames, calls + whole.calls, whole.outcome) ==
            Session(frames + s.frames, calls + s.calls, Dropped))
      && (s.next.Crash? ==>
            Session(frames + whole.frames, calls + whole.calls, whole.outcome) ==
            Session(frames + s.frames, calls + s.calls, Crashed(s.next.fault)))
  {
    assert (frames + s.frames) + tail.frames == frames + (s.frames + tail.frames);
    assert (calls + s.calls) + tail.calls == calls + (s.calls + tail.calls);
  }

  /** Serving read `i` extends the bookkeeping by that request's step. */
  lemma ServeOneMore(conn: ConnectionData, svc: Services, incoming: seq<Read>, i: nat,
                     frames: seq<Frame>, calls: seq<LegacyCall>, s: Step)
    requires i < |incoming| && !EndsLoop(incoming[i])
    requires ServedSoFar(conn, svc, incoming, i, frames, calls)
    requires s == ServeStep(conn, svc, incoming[i].exchange)
    ensures s.next == Continue ==> ServedSoFar(conn, svc, incoming, i + 1, frames + s.frames, calls + s.calls)
    ensures s.next == Stop ==> Serve(conn, svc, incoming) == Session(frames + s.frames, calls + s.calls, Dropped)
    ensures s.next.Crash? ==> Serve(conn, svc, incoming) == Session(frames + s.frames, calls + s.calls, Crashed(s.next.fault))
  {
    ServeCons(conn, svc, incoming, i);
    AfterPrefix(frames, calls, s, Serve(conn, svc, incoming[i + 1..]));
  }

  /** `onConnection`: read requests until one ends the loop, serving each. */
  method OnConnection(conn: ConnectionData, svc: Services, incoming: seq<Read>)
    returns (frames: seq<Frame>, calls: seq<LegacyCall>, outcome: Outcome)
    ensures Session(frames, calls, outcome) == Serve(conn, svc, incoming)
  {
    frames, calls := [], [];
    var i := 0;
    assert incoming[0..] == incoming;
    while true
      invariant 0 <= i <= |incoming|
      invariant ServedSoFar(conn, svc, incoming, i, frames, calls)
      decreases |incoming| - i
    {
      if i == |incoming| || EndsLoop(incoming[i]) {
        assert Serve(conn, svc, incoming[i..]) == Session([], [], Dropped);
        return frames, calls, Dropped;
      }
      var f, c, next := ServeRequest(conn, svc, incoming[i].exchange);
      ServeOneMore(conn, svc, incoming, i, frames, calls, Step(f, c, next));
      frames, calls := frames + f, calls + c;
      match next {
        case Continue =>
          i := i + 1;
        case Stop => return frames, calls, Dropped;
        case Crash(fault) => return frames, calls, Crashed(fault);
      }
    }
  }
}
