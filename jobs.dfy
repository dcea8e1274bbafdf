/** The two job processors. Each owns a replay buffer: `process` drives one
    upstream call and records the outcome in the buffer, the table and the
    marketplace; `prefetch` rebuilds the buffer from a stored row; `connect`
    hands a reader the buffer from its first frame. */
module Jobs {
  import opened Wrappers
  import opened Protocol
  import opened JobSchema
  import opened JobStore
  import opened Marketplace
  import opened ReplayBuffer

  /** An exception from the upstream client: the `OpenAI.OpenAIError`
      family, or anything else. */
  datatype UpstreamError = OpenAIError(message: string) | OtherError(message: string)

  /** How the upstream chunk iterator ends. */
  datatype StreamEnd = Exhausted | FailedAfter(error: UpstreamError)

  /** The upstream behaviour a streaming job meets: the create call throws,
      or it yields `chunks` and then ends or throws. */
  datatype StreamingUpstream =
    | StreamRefused(error: UpstreamError)
    | Streamed(chunks: seq<Chunk>, end: StreamEnd)

  /** The upstream behaviour a non-streaming job meets. */
  datatype NonStreamingUpstream =
    | CallRefused(error: UpstreamError)
    | Answered(response: Response)

  /** Why a processor's promise rejects. */
  datatype Fault =
    | Rethrown(error: UpstreamError)  // a non-OpenAI error, thrown on
    | MissingUsage                    // `assert(usage)` failed
    | RowMissing                      // "Failed to prefetch job #…"
    | StillInProgress                 // "Prefetched job is still in-progress"
    | CompletionFieldsMissing         // `assert(job.completedAtSync)` or `assert(job.publicPayload)` failed
    | NotIterable                     // a single response where a chunk list was expected
    | ShapeMismatch                   // a chunk list where a single response was expected

  datatype ProcessOutcome = Completed | ServiceFailed | Threw(fault: Fault)

  /** The arguments of `process` besides the upstream behaviour.
      `calcCost` is `openai.calcCost`; `completedAtSync` is what
      `providerCompleteJob` answers. */
  datatype JobContext = JobContext(
    providerPeerId: string,
    providerJobId: string,
    offer: OfferPayload,
    input: RequestBody,
    calcCost: (OfferPayload, Usage) -> string,
    completedAtSync: int)

  /** Everything one `process` call does: the frames it writes, whether it
      ends the buffer, its table write, its marketplace calls, its outcome. */
  datatype Run = Run(frames: seq<Frame>, closes: bool, effect: DbEffect, calls: seq<RpcCall>, outcome: ProcessOutcome)

  /** The OpenAIError path: record the message on the table, fail the job
      with the ServiceError class, leave the buffer open. */
  function ServiceFailure(ctx: JobContext, frames: seq<Frame>, message: string): Run {
    Run(frames, false, ErrorOnAll(message),
        [FailJob(ctx.providerPeerId, ctx.providerJobId, ServiceErrorReason, ServiceErrorClass)], ServiceFailed)
  }

  function Failed(frames: seq<Frame>, fault: Fault): Run {
    Run(frames, false, NoWrite, [], Threw(fault))
  }

  /** What `StreamingCompletionJob.process` does for a given upstream. */
  function StreamingRun(up: StreamingUpstream, ctx: JobContext): Run {
    match up
    case StreamRefused(OpenAIError(m)) => ServiceFailure(ctx, [Prologue(ServiceError, Bare)], m)
    case StreamRefused(e) => Failed([], Rethrown(e))
    case Streamed(chunks, end) => StreamedRun(chunks, end, ctx)
  }

  /** The part of a streaming run after the create call succeeded. */
  function StreamedRun(chunks: seq<Chunk>, end: StreamEnd, ctx: JobContext): Run {
    var head := [Prologue(Ok, Bare)] + ChunkFrames(chunks);
    match end
    case FailedAfter(OpenAIError(m)) => ServiceFailure(ctx, head, m)
    case FailedAfter(e) => Failed(head, Rethrown(e))
    case Exhausted =>
      match LastUsage(chunks)
      case None => Failed(head, MissingUsage)
      case Some(u) =>
        var payload := BuildPublicPayload(ctx.input, u);
        var delta := ctx.calcCost(ctx.offer, u);
        Run(head + [StreamingEpilogue(Some(delta), payload, ctx.completedAtSync)], true,
            Complete(ChunkList(chunks), ctx.completedAtSync, delta, payload),
            [CompleteJob(ctx.providerPeerId, ctx.providerJobId, delta, payload)], Completed)
  }

  /** What `NonStreamingCompletionJob.process` does for a given upstream. */
  function NonStreamingRun(up: NonStreamingUpstream, ctx: JobContext): Run {
    match up
    case CallRefused(OpenAIError(m)) => ServiceFailure(ctx, [Prologue(ServiceError, Bare)], m)
    case CallRefused(e) => Failed([], Rethrown(e))
    case Answered(response) =>
      match response.usage
      case None => Failed([], MissingUsage)
      case Some(u) =>
        var payload := BuildPublicPayload(ctx.input, u);
        var delta := ctx.calcCost(ctx.offer, u);
        Run([Prologue(Ok, Bare), ResponseFrame(response), NonStreamingEpilogue(delta, payload, ctx.completedAtSync)], true,
            Complete(SingleResponse(response), ctx.completedAtSync, delta, payload),
            [CompleteJob(ctx.providerPeerId, ctx.providerJobId, delta, payload)], Completed)
  }

  /** What `StreamingCompletionJob.prefetch` writes for the row it loads
      (every frame, then end), or why it throws; WrittenBeforeFault says
      what it has written by then. */
  function StreamingReplay(row: Option<JobRow>): Result<seq<Frame>, Fault> {
    match row
    case None => Failure(RowMissing)
    case Some(job) =>
      if HasText(job.openaiError) then Success([Prologue(ServiceError, Bare)])
      else if job.output.None? then Failure(StillInProgress)
      else if !HasSync(job.completedAtSync) || job.publicPayload.None? then Failure(CompletionFieldsMissing)
      else match job.output.value
        case SingleResponse(_) => Failure(NotIterable)
        case ChunkList(chunks) =>
          Success([Prologue(Ok, Bare)] + ChunkFrames(chunks) +
                  [StreamingEpilogue(job.balanceDelta, job.publicPayload.value, job.completedAtSync.value)])
  }

  /** What `NonStreamingCompletionJob.prefetch` writes for the row it loads. */
  function NonStreamingReplay(row: Option<JobRow>): Result<seq<Frame>, Fault> {
    match row
    case None => Failure(RowMissing)
    case Some(job) =>
      if HasText(job.openaiError) then Success([Prologue(ServiceError, Bare)])
      else if job.output.None? then Failure(StillInProgress)
      else match job.output.value
        case ChunkList(_) => Failure(ShapeMismatch)
        case SingleResponse(response) => Success([Prologue(Ok, Bare), ResponseFrame(response)])
  }

  /** What a streaming prefetch has already written when it throws: the Ok
      prologue when the stored output passed both asserts but is not an
      iterable chunk list, nothing otherwise. */
  function WrittenBeforeFault(f: Fault): seq<Frame> {
    if f == NotIterable then [Prologue(Ok, Bare)] else []
  }

  predicate IsEpilogue(f: Frame) {
    f.StreamingEpilogue? || f.NonStreamingEpilogue?
  }

  /** Frame order on a job stream: a prologue first and nowhere else, and an
      epilogue, if any, last. */
  predicate WellOrdered(fs: seq<Frame>) {
    && (fs != [] ==> fs[0].Prologue?)
    && (forall i :: 0 < i < |fs| ==> !fs[i].Prologue?)
    && (forall i :: 0 <= i < |fs| - 1 ==> !IsEpilogue(fs[i]))
  }

  /** Every frame sequence `process` writes is well ordered. */
  lemma RunsAreWellOrdered(s: StreamingUpstream, n: NonStreamingUpstream, ctx: JobContext)
    ensures WellOrdered(StreamingRun(s, ctx).frames)
    ensures WellOrdered(NonStreamingRun(n, ctx).frames)
  {
    if s.Streamed? {
      var fs := [Prologue(Ok, Bare)] + ChunkFrames(s.chunks);
      assert forall i :: 0 < i < |fs| ==> fs[i] == ChunkFrame(s.chunks[i - 1]);
    }
  }

  /** `process` writes no frame at all exactly when the create call throws a
      non-OpenAI error, or, without streaming, answers without usage; every
      other run starts with its prologue. A stream that breaks before its
      first chunk has already written Ok. */
  lemma EmptyRunsIff(s: StreamingUpstream, n: NonStreamingUpstream, ctx: JobContext)
    ensures StreamingRun(s, ctx).frames == [] <==> s.StreamRefused? && s.error.OtherError?
    ensures s.Streamed? ==> StreamingRun(s, ctx).frames != [] && StreamingRun(s, ctx).frames[0] == Prologue(Ok, Bare)
    ensures NonStreamingRun(n, ctx).frames == [] <==>
      (n.CallRefused? && n.error.OtherError?) || (n.Answered? && n.response.usage.None?)
  {
  }

  /** An OpenAIError from the create call does the same in both processors:
      a lone ServiceError prologue, the buffer left open, the message on
      every row, and the job failed on the marketplace. */
  lemma CreateErrorFailsService(message: string, ctx: JobContext)
    ensures StreamingRun(StreamRefused(OpenAIError(message)), ctx) == NonStreamingRun(CallRefused(OpenAIError(message)), ctx)
    ensures var run := StreamingRun(StreamRefused(OpenAIError(message)), ctx);
      && run.frames == [Prologue(ServiceError, Bare)]
      && !run.closes
      && run.effect == ErrorOnAll(message)
      && run.calls == [FailJob(ctx.providerPeerId, ctx.providerJobId, ServiceErrorReason, ServiceErrorClass)]
      && run.outcome == ServiceFailed
  {
  }

  /** Every frame sequence `prefetch` writes is well ordered and starts
      with a prologue. */
  lemma ReplaysAreWellOrdered(row: Option<JobRow>)
    ensures StreamingReplay(row).Success? ==> StreamingReplay(row).value != [] && WellOrdered(StreamingReplay(row).value)
    ensures NonStreamingReplay(row).Success? ==> NonStreamingReplay(row).value != [] && WellOrdered(NonStreamingReplay(row).value)
  {
    if StreamingReplay(row).Success? && row.value.output.Some? && !HasText(row.value.openaiError) {
      var chunks := row.value.output.value.chunks;
      var fs := [Prologue(Ok, Bare)] + ChunkFrames(chunks);
      assert forall i :: 0 < i < |fs| ==> fs[i] == ChunkFrame(chunks[i - 1]);
    }
  }

  /** A non-streaming job completes exactly when the call answers with
      usage; only then is a balance computed, the row's output written and
      the buffer ended. */
  lemma NonStreamingCompletesIff(up: NonStreamingUpstream, ctx: JobContext)
    ensures var run := NonStreamingRun(up, ctx);
      && (run.outcome == Completed <==> up.Answered? && up.response.usage.Some?)
      && (run.effect.Complete? <==> run.outcome == Completed)
      && (run.closes <==> run.outcome == Completed)
      && (run.outcome != Completed ==> forall c :: c in run.calls ==> !c.CompleteJob?)
  {
  }

  /** A streaming job completes exactly when the stream runs out without an
      error and some chunk carried usage; only then is a balance computed
      and the row's output written. */
  lemma StreamingCompletesIff(up: StreamingUpstream, ctx: JobContext)
    ensures var run := StreamingRun(up, ctx);
      && (run.outcome == Completed <==> up.Streamed? && up.end.Exhausted? && LastUsage(up.chunks).Some?)
      && (run.effect.Complete? <==> run.outcome == Completed)
      && (run.closes <==> run.outcome == Completed)
      && (run.outcome != Completed ==> forall c :: c in run.calls ==> !c.CompleteJob?)
  {
  }

  /** Streaming success: Ok, then the upstream chunks verbatim in arrival
      order, then the tagged epilogue billing the last usage seen. */
  lemma StreamingSuccessFrames(chunks: seq<Chunk>, ctx: JobContext, u: Usage)
    requires LastUsage(chunks) == Some(u)
    ensures var fs := StreamingRun(Streamed(chunks, Exhausted), ctx).frames;
      && |fs| == |chunks| + 2
      && fs[0] == Prologue(Ok, Bare)
      && (forall i :: 0 <= i < |chunks| ==> fs[i + 1] == ChunkFrame(chunks[i]))
      && fs[|fs| - 1] == StreamingEpilogue(Some(ctx.calcCost(ctx.offer, u)), BuildPublicPayload(ctx.input, u), ctx.completedAtSync)
      && ObjectTag(fs[|fs| - 1]) == Some(EpilogueTag)
  {
    var payload := BuildPublicPayload(ctx.input, u);
    var epilogue := StreamingEpilogue(Some(ctx.calcCost(ctx.offer, u)), payload, ctx.completedAtSync);
    var fs := [Prologue(Ok, Bare)] + ChunkFrames(chunks) + [epilogue];
    assert StreamingRun(Streamed(chunks, Exhausted), ctx).frames == fs;
    assert forall i :: 0 <= i < |chunks| ==> fs[i + 1] == ChunkFrames(chunks)[i];
  }

  /** An OpenAIError in mid-stream adds no frame after the chunks already
      forwarded, computes no balance and leaves the buffer open. */
  lemma MidStreamErrorWritesNothingMore(chunks: seq<Chunk>, message: string, ctx: JobContext)
    ensures var run := StreamingRun(Streamed(chunks, FailedAfter(OpenAIError(message))), ctx);
      && run.frames == [Prologue(Ok, Bare)] + ChunkFrames(chunks)
      && !run.closes
      && run.effect == ErrorOnAll(message)
      && run.calls == [FailJob(ctx.providerPeerId, ctx.providerJobId, ServiceErrorReason, ServiceErrorClass)]
  {
  }

  /** A non-streaming job checks usage before writing any frame. */
  lemma NonStreamingUsageCheckedFirst(response: Response, ctx: JobContext)
    requires response.usage.None?
    ensures var run := NonStreamingRun(Answered(response), ctx);
      run.frames == [] && run.outcome == Threw(MissingUsage) && run.effect == NoWrite && run.calls == []
  {
  }

  /** Replay equals live for a streaming job: once its completion write
      lands on a row with no error text, prefetching that row rebuilds
      exactly the frames `process` wrote. A completion time of zero fails the
      prefetch's `assert(job.completedAtSync)` and is excluded. */
  lemma StreamingReplayEqualsLive(t: JobTable, rowid: int, up: StreamingUpstream, ctx: JobContext)
    requires rowid in t && !HasText(t[rowid].openaiError) && ctx.completedAtSync != 0
    requires StreamingRun(up, ctx).outcome == Completed
    ensures var run := StreamingRun(up, ctx);
      StreamingReplay(Some(ApplyEffect(t, rowid, run.effect)[rowid])) == Success(run.frames)
  {
  }

  /** Replay differs from live for a non-streaming job: the replay has the
      prologue and the response but never the epilogue. */
  lemma NonStreamingReplayLacksEpilogue(t: JobTable, rowid: int, up: NonStreamingUpstream, ctx: JobContext)
    requires rowid in t && !HasText(t[rowid].openaiError)
    requires NonStreamingRun(up, ctx).outcome == Completed
    ensures var run := NonStreamingRun(up, ctx);
      && |run.frames| == 3 && run.frames[2].NonStreamingEpilogue?
      && NonStreamingReplay(Some(ApplyEffect(t, rowid, run.effect)[rowid])) == Success(run.frames[..2])
  {
    var response := up.response;
    var run := NonStreamingRun(up, ctx);
    var row := ApplyEffect(t, rowid, run.effect)[rowid];
    assert row.output == Some(SingleResponse(response)) && row.openaiError == t[rowid].openaiError;
    assert run.frames[..2] == [Prologue(Ok, Bare), ResponseFrame(response)];
  }

  /** After an OpenAIError the job's own pending row replays as a lone
      ServiceError frame, which then ends the stream, whereas the live buffer
      was left open; an empty error message is falsy and leaves the row
      looking in progress. */
  lemma ServiceFailureReplay(t: JobTable, rowid: int, up: StreamingUpstream, ctx: JobContext)
    requires rowid in t && t[rowid].output.None?
    requires StreamingRun(up, ctx).outcome == ServiceFailed
    ensures var run := StreamingRun(up, ctx);
      var replay := StreamingReplay(Some(ApplyEffect(t, rowid, run.effect)[rowid]));
      && !run.closes
      && run.effect.ErrorOnAll?
      && (run.effect.message != "" ==> replay == Success([Prologue(ServiceError, Bare)]))
      && (run.effect.message == "" ==> replay == Failure(StillInProgress))
  {
  }

  /** The error write has no rowid filter: one job's OpenAIError makes every
      other row, completed ones included, replay as a lone ServiceError. */
  lemma ForeignFailureRewritesReplay(t: JobTable, other: int, rowid: int, up: NonStreamingUpstream, ctx: JobContext)
    requires rowid in t
    requires NonStreamingRun(up, ctx).outcome == ServiceFailed && up.error.message != ""
    ensures var row := ApplyEffect(t, other, NonStreamingRun(up, ctx).effect)[rowid];
      && row.output == t[rowid].output
      && StreamingReplay(Some(row)) == Success([Prologue(ServiceError, Bare)])
      && NonStreamingReplay(Some(row)) == Success([Prologue(ServiceError, Bare)])
  {
  }

  /** A missing row, or one with neither error text nor output, replays as
      a fault: prefetch throws without writing a frame. */
  lemma UnfinishedRowsDoNotReplay(row: Option<JobRow>)
    requires row.None? || (!HasText(row.value.openaiError) && row.value.output.None?)
    ensures StreamingReplay(row).Failure? && NonStreamingReplay(row).Failure?
    ensures WrittenBeforeFault(StreamingReplay(row).error) == []
  {
  }

  /** A finished single response met by the streaming prefetch: the Ok
      prologue goes out, then iterating the response throws, so a reader
      sees a lone Ok frame on a buffer that never ends. */
  lemma SingleResponseStallsStreamingReplay(job: JobRow, response: Response)
    requires !HasText(job.openaiError) && job.output == Some(SingleResponse(response))
    requires HasSync(job.completedAtSync) && job.publicPayload.Some?
    ensures StreamingReplay(Some(job)) == Failure(NotIterable)
    ensures WrittenBeforeFault(StreamingReplay(Some(job)).error) == [Prologue(Ok, Bare)]
  {
  }

  class StreamingCompletionJob {
    const localJobId: int
    const responseStream: ReplayBuffer

    constructor (localJobId: int)
      ensures this.localJobId == localJobId && fresh(responseStream)
      ensures responseStream.log == [] && !responseStream.closed
    {
      this.localJobId := localJobId;
      responseStream := new ReplayBuffer();
    }

    /** Rebuild the buffer from the stored row: on success every frame of
        StreamingReplay and then end; on a fault whatever WrittenBeforeFault
        names has been written and the buffer stays open. */
    method Prefetch(db: JobStore) returns (fault: Option<Fault>)
      requires !responseStream.closed
      modifies responseStream
      ensures match StreamingReplay(db.FindByRowid(localJobId))
        case Success(frames) =>
          fault.None? && responseStream.log == old(responseStream.log) + frames && responseStream.closed
        case Failure(f) =>
          && fault == Some(f)
          && responseStream.log == old(responseStream.log) + WrittenBeforeFault(f)
          && !responseStream.closed
    {
      var row := db.FindByRowid(localJobId);
      if row.None? {
        return Some(RowMissing);
      }
      var job := row.value;
      if HasText(job.openaiError) {
        responseStream.Write(Prologue(ServiceError, Bare));
        responseStream.End();
        return None;
      }
      if job.output.None? {
        return Some(StillInProgress);
      }
      if !HasSync(job.completedAtSync) || job.publicPayload.None? {
        return Some(CompletionFieldsMissing);
      }
      responseStream.Write(Prologue(Ok, Bare));
      if job.output.value.SingleResponse? {
        return Some(NotIterable);
      }
      var chunks := job.output.value.chunks;
      for i := 0 to |chunks|
        invariant responseStream.log == old(responseStream.log) + [Prologue(Ok, Bare)] + ChunkFrames(chunks[..i])
        invariant !responseStream.closed
      {
        assert chunks[..i + 1][..i] == chunks[..i];
        responseStream.Write(ChunkFrame(chunks[i]));
      }
      assert chunks[..|chunks|] == chunks;
      responseStream.Write(StreamingEpilogue(job.balanceDelta, job.publicPayload.value, job.completedAtSync.value));
      responseStream.End();
      fault := None;
    }

    /** `connect(stream)`: the reader receives the log from its first frame. */
    method Connect() returns (frames: seq<Frame>, ended: bool)
      ensures frames == responseStream.log && ended == responseStream.closed
    {
      frames, ended := responseStream.Rewind();
    }

    /** The `for await` loop: collect each chunk, write it, and keep the
        usage of the last chunk that carries one. */
    method ForwardChunks(delivered: seq<Chunk>) returns (chunks: seq<Chunk>, usage: Option<Usage>)
      requires !responseStream.closed
      modifies responseStream
      ensures chunks == delivered && usage == LastUsage(delivered)
      ensures responseStream.log == old(responseStream.log) + ChunkFrames(delivered)
      ensures !responseStream.closed
    {
      usage := None;
      chunks := [];
      var i := 0;
      while i < |delivered|
        invariant 0 <= i <= |delivered|
        invariant chunks == delivered[..i]
        invariant usage == LastUsage(chunks)
        invariant responseStream.log == old(responseStream.log) + ChunkFrames(chunks)
        invariant !responseStream.closed
      {
        var chunk := delivered[i];
        chunks := chunks + [chunk];
        assert chunks[..|chunks| - 1] == delivered[..i];
        responseStream.Write(ChunkFrame(chunk));
        if chunk.usage.Some? {
          usage := chunk.usage;
        }
        i := i + 1;
      }
      assert chunks == delivered;
    }

    /** Drive the streaming upstream call and record what StreamingRun says:
        the frames appended to the buffer, whether it ends, the table write
        and the marketplace calls. */
    method Process(db: JobStore, rpc: Rpc, up: StreamingUpstream, ctx: JobContext) returns (outcome: ProcessOutcome)
      requires !responseStream.closed
      modifies responseStream, db`jobs, rpc
      ensures var run := StreamingRun(up, ctx);
        && responseStream.log == old(responseStream.log) + run.frames
        && responseStream.closed == run.closes
        && db.jobs == ApplyEffect(old(db.jobs), localJobId, run.effect)
        && rpc.calls == old(rpc.calls) + run.calls
        && outcome == run.outcome
    {
      match up
      case StreamRefused(e) =>
        if e.OpenAIError? {
          responseStream.Write(Prologue(ServiceError, Bare));
          db.SetOpenAiErrorOnAll(e.message);
          rpc.FailJob(ctx.providerPeerId, ctx.providerJobId, ServiceErrorReason, ServiceErrorClass);
          return ServiceFailed;
        }
        return Threw(Rethrown(e));
      case Streamed(delivered, end) =>
        outcome := Relay(db, rpc, delivered, end, ctx);
    }

    /** The upstream accepted the call: forward its chunks, then record
        how the stream ended. */
    method Relay(db: JobStore, rpc: Rpc, delivered: seq<Chunk>, end: StreamEnd, ctx: JobContext)
      returns (outcome: ProcessOutcome)
      requires !responseStream.closed
      modifies responseStream, db`jobs, rpc
      ensures var run := StreamedRun(delivered, end, ctx);
        && responseStream.log == old(responseStream.log) + run.frames
        && responseStream.closed == run.closes
        && db.jobs == ApplyEffect(old(db.jobs), localJobId, run.effect)
        && rpc.calls == old(rpc.calls) + run.calls
        && outcome == run.outcome
    {
      responseStream.Write(Prologue(Ok, Bare));
      var chunks, usage := ForwardChunks(delivered);
      if end.FailedAfter? {
        if end.error.OpenAIError? {
          db.SetOpenAiErrorOnAll(end.error.message);
          rpc.FailJob(ctx.providerPeerId, ctx.providerJobId, ServiceErrorReason, ServiceErrorClass);
          return ServiceFailed;
        }
        return Threw(Rethrown(end.error));
      }
      if usage.None? {
        return Threw(MissingUsage);
      }
      var publicPayload := BuildPublicPayload(ctx.input, usage.value);
      var balanceDelta := ctx.calcCost(ctx.offer, usage.value);
      rpc.ProviderCompleteJob(ctx.providerPeerId, ctx.providerJobId, balanceDelta, publicPayload);
      responseStream.Write(StreamingEpilogue(Some(balanceDelta), publicPayload, ctx.completedAtSync));
      db.CompleteRow(localJobId, ChunkList(chunks), ctx.completedAtSync, balanceDelta, publicPayload);
      responseStream.End();
      return Completed;
    }
  }

  class NonStreamingCompletionJob {
    const jobRowid: int
    const responseStream: ReplayBuffer

    constructor (jobRowid: int)
      ensures this.jobRowid == jobRowid && fresh(responseStream)
      ensures responseStream.log == [] && !responseStream.closed
    {
      this.jobRowid := jobRowid;
      responseStream := new ReplayBuffer();
    }

    /** Rebuild the buffer from the stored row: on success every frame of
        NonStreamingReplay and then end; on a fault nothing is written. */
    method Prefetch(db: JobStore) returns (fault: Option<Fault>)
      requires !responseStream.closed
      modifies responseStream
      ensures match NonStreamingReplay(db.FindByRowid(jobRowid))
        case Success(frames) =>
          fault.None? && responseStream.log == old(responseStream.log) + frames && responseStream.closed
        case Failure(f) =>
          fault == Some(f) && responseStream.log == old(responseStream.log) && !responseStream.closed
    {
      var row := db.FindByRowid(jobRowid);
      if row.None? {
        return Some(RowMissing);
      }
      var job := row.value;
      if HasText(job.openaiError) {
        responseStream.Write(Prologue(ServiceError, Bare));
        responseStream.End();
        return None;
      }
      if job.output.None? {
        return Some(StillInProgress);
      }
      if job.output.value.ChunkList? {
        return Some(ShapeMismatch);
      }
      responseStream.Write(Prologue(Ok, Bare));
      responseStream.Write(ResponseFrame(job.output.value.response));
      responseStream.End();
      fault := None;
    }

    /** `connect(stream)`: the reader receives the log from its first frame. */
    method Connect() returns (frames: seq<Frame>, ended: bool)
      ensures frames == responseStream.log && ended == responseStream.closed
    {
      frames, ended := responseStream.Rewind();
    }

    /** Drive the non-streaming upstream call and record what
        NonStreamingRun says. */
    method Process(db: JobStore, rpc: Rpc, up: NonStreamingUpstream, ctx: JobContext) returns (outcome: ProcessOutcome)
      requires !responseStream.closed
      modifies responseStream, db`jobs, rpc
      ensures var run := NonStreamingRun(up, ctx);
        && responseStream.log == old(responseStream.log) + run.frames
        && responseStream.closed == run.closes
        && db.jobs == ApplyEffect(old(db.jobs), jobRowid, run.effect)
        && rpc.calls == old(rpc.calls) + run.calls
        && outcome == run.outcome
    {
      match up
      case CallRefused(e) =>
        if e.OpenAIError? {
          responseStream.Write(Prologue(ServiceError, Bare));
          db.SetOpenAiErrorOnAll(e.message);
          rpc.FailJob(ctx.providerPeerId, ctx.providerJobId, ServiceErrorReason, ServiceErrorClass);
          return ServiceFailed;
        }
        return Threw(Rethrown(e));
      case Answered(response) =>
        if response.usage.None? {
          return Threw(MissingUsage);
        }
        responseStream.Write(Prologue(Ok, Bare));
        responseStream.Write(ResponseFrame(response));
        var publicPayload := BuildPublicPayload(ctx.input, response.usage.value);
        var balanceDelta := ctx.calcCost(ctx.offer, response.usage.value);
        rpc.ProviderCompleteJob(ctx.providerPeerId, ctx.providerJobId, balanceDelta, publicPayload);
        responseStream.Write(NonStreamingEpilogue(balanceDelta, publicPayload, ctx.completedAtSync));
        db.CompleteRow(jobRowid, SingleResponse(response), ctx.completedAtSync, balanceDelta, publicPayload);
        responseStream.End();
        return Completed;
    }
  }
}
