/** The orchestrator: admits create-job events, mints connection nonces
    and serves job connections from live or rehydrated processors. */
module Provider {
  import opened Wrappers
  import opened Protocol
  import opened Decimal
  import opened JobSchema
  import opened JobStore
  import opened Marketplace
  import opened ReplayBuffer
  import opened Jobs

  /** A live processor of either variant. */
  datatype Processor =
    | StreamingProcessor(streamingJob: StreamingCompletionJob)
    | NonStreamingProcessor(nonStreamingJob: NonStreamingCompletionJob)
  {
    function Rowid(): int {
      match this
      case StreamingProcessor(j) => j.localJobId
      case NonStreamingProcessor(j) => j.jobRowid
    }

    function Buffer(): ReplayBuffer {
      match this
      case StreamingProcessor(j) => j.responseStream
      case NonStreamingProcessor(j) => j.responseStream
    }

    predicate Streams() {
      StreamingProcessor?
    }
  }

  /** What a nonce stands for until it is redeemed. */
  datatype AwaitingConnection = AwaitingConnection(jobRowid: int, streaming: bool)

  datatype CreateJobData = CreateJobData(
    protocolId: string,
    offerId: string,
    providerPeerId: string,
    providerJobId: string,
    jobArgs: Option<string>)

  /** Why `job_args` were refused: absent, not JSON, or not a request body. */
  datatype ArgsProblem = ExpectedArgs | NotJson | SchemaIssues

  datatype CreateJobResponse = CreateOk | InvalidJobArgs(problem: ArgsProblem)

  datatype PrepareResponse = PrepareOk(nonce: string) | JobNotFound

  /** The errors the handlers throw to the RPC layer. */
  datatype CallError = InvalidProtocolId | InvalidOfferId | UnexpectedNonce

  /** What a connected reader receives: the frames, and whether they end. */
  datatype Connection = Connection(frames: seq<Frame>, ended: bool)

  /** The verdict of `onCreateJob`'s validation chain. */
  datatype Admission =
    | Rejected(error: CallError)
    | Refused(problem: ArgsProblem)
    | Admitted(offer: OfferPayload, input: RequestBody)

  /** The validation chain, in the source's order: protocol, offer,
      presence of args, JSON, request-body schema. */
  function Admit(protocolId: string, offers: map<string, OfferPayload>, parseJson: string -> Option<Json>,
                 validateBody: Json -> Option<RequestBody>, data: CreateJobData): (a: Admission)
    ensures a.Refused? ==> data.protocolId == protocolId && data.offerId in offers
    ensures a.Refused? && a.problem != ExpectedArgs ==> HasText(data.jobArgs)
    ensures a.Admitted? ==> data.offerId in offers && a.offer == offers[data.offerId]
  {
    if data.protocolId != protocolId then Rejected(InvalidProtocolId)
    else if data.offerId !in offers then Rejected(InvalidOfferId)
    else if !HasText(data.jobArgs) then Refused(ExpectedArgs)
    else match parseJson(data.jobArgs.value)
      case None => Refused(NotJson)
      case Some(json) =>
        match validateBody(json)
        case None => Refused(SchemaIssues)
        case Some(body) => Admitted(offers[data.offerId], body)
  }

  /** A job is admitted exactly when every check passes; a foreign protocol
      or an unknown offer is a thrown error, every args problem a refusal. */
  lemma AdmittedIff(protocolId: string, offers: map<string, OfferPayload>, parseJson: string -> Option<Json>,
                    validateBody: Json -> Option<RequestBody>, data: CreateJobData)
    ensures var a := Admit(protocolId, offers, parseJson, validateBody, data);
      && (a.Rejected? <==> data.protocolId != protocolId || data.offerId !in offers)
      && (a.Admitted? <==>
            && data.protocolId == protocolId && data.offerId in offers && HasText(data.jobArgs)
            && parseJson(data.jobArgs.value).Some?
            && validateBody(parseJson(data.jobArgs.value).value).Some?)
      && (a.Admitted? ==>
            && a.offer == offers[data.offerId]
            && a.input == validateBody(parseJson(data.jobArgs.value).value).value)
  {
  }

  /** Admission never compares the body's model with the offer's model id:
      a body naming another model is admitted all the same. */
  lemma AdmitIgnoresModelId(protocolId: string, offers: map<string, OfferPayload>, parseJson: string -> Option<Json>,
                            validateBody: Json -> Option<RequestBody>, data: CreateJobData, body: RequestBody)
    requires data.protocolId == protocolId && data.offerId in offers && HasText(data.jobArgs)
    requires parseJson(data.jobArgs.value).Some? && validateBody(parseJson(data.jobArgs.value).value) == Some(body)
    requires body.ModelId() != Some(offers[data.offerId].modelId)
    ensures Admit(protocolId, offers, parseJson, validateBody, data) == Admitted(offers[data.offerId], body)
  {
  }

  /** The frames `prefetch` writes for a stored row, by variant. */
  function ReplayFor(streaming: bool, row: Option<JobRow>): Result<seq<Frame>, Fault> {
    if streaming then StreamingReplay(row) else NonStreamingReplay(row)
  }

  /** On a well-shaped row of the matching variant, prefetch can only fail
      because the row is unfinished or lacks its completion fields. */
  lemma ReplayFaultsOnWellShapedRows(t: JobTable, rowid: int, streaming: bool)
    requires WellShaped(t) && rowid in t && t[rowid].streaming == streaming
    ensures ReplayFor(streaming, Some(t[rowid])).Failure? ==>
      ReplayFor(streaming, Some(t[rowid])).error in {StillInProgress, CompletionFieldsMissing}
  {
  }

  /** The provider's invariant over the table and its two maps: issued
      nonces are below the counter; every nonce and every live processor
      refers to an existing row and agrees with its streaming flag; a
      processor is registered under its own rowid. */
  ghost predicate Consistent(t: JobTable, counter: nat, processors: map<int, Processor>,
                             awaiting: map<int, AwaitingConnection>)
  {
    && WellShaped(t)
    && (forall n :: n in awaiting ==>
          && 0 <= n < counter
          && awaiting[n].jobRowid in t
          && t[awaiting[n].jobRowid].streaming == awaiting[n].streaming)
    && (forall r :: r in processors ==>
          && processors[r].Rowid() == r
          && r in t
          && processors[r].Streams() == t[r].streaming)
  }

  /** Inserting a pending row, running its job and registering its
      processor keeps the invariant. */
  lemma StartKeepsConsistent(t: JobTable, counter: nat, processors: map<int, Processor>,
                             awaiting: map<int, AwaitingConnection>, rowid: int, row: JobRow, e: DbEffect, p: Processor)
    requires Consistent(t, counter, processors, awaiting) && rowid !in t
    requires row.output.None? && p.Rowid() == rowid && p.Streams() == row.streaming
    requires e.Complete? ==> (e.output.ChunkList? <==> row.streaming)
    ensures Consistent(ApplyEffect(t[rowid := row], rowid, e), counter, processors[rowid := p], awaiting)
  {
    var t' := t[rowid := row];
    EffectKeepsShape(t', rowid, e);
  }

  /** The `process` run of the variant a request body selects. */
  function RunFor(streams: bool, streamed: StreamingUpstream, answered: NonStreamingUpstream, ctx: JobContext): Run {
    if streams then StreamingRun(streamed, ctx) else NonStreamingRun(answered, ctx)
  }

  /** `new …CompletionJob(rowid)` of the selected variant followed by its
      `process`. */
  method Launch(db: JobStore, rpc: Rpc, rowid: int, streams: bool, streamed: StreamingUpstream,
                answered: NonStreamingUpstream, ctx: JobContext) returns (p: Processor, outcome: ProcessOutcome)
    modifies db`jobs, rpc
    ensures var run := RunFor(streams, streamed, answered, ctx);
      && p.Rowid() == rowid && p.Streams() == streams && fresh(p.Buffer())
      && p.Buffer().log == run.frames && p.Buffer().closed == run.closes
      && db.jobs == ApplyEffect(old(db.jobs), rowid, run.effect)
      && rpc.calls == old(rpc.calls) + run.calls
      && outcome == run.outcome
  {
    if streams {
      var job := new StreamingCompletionJob(rowid);
      outcome := job.Process(db, rpc, streamed, ctx);
      p := StreamingProcessor(job);
    } else {
      var job := new NonStreamingCompletionJob(rowid);
      outcome := job.Process(db, rpc, answered, ctx);
      p := NonStreamingProcessor(job);
    }
  }

  class OpenAiProxyProvider {
    /** `openai.ProtocolId`. */
    const protocolId: string
    /** `config.offers`. */
    const offers: map<string, OfferPayload>
    /** `JSON.parse`, failing as None. */
    const parseJson: string -> Option<Json>
    /** `v.safeParse(openai.RequestBodySchema, ·)`. */
    const validateBody: Json -> Option<RequestBody>
    /** `openai.calcCost`. */
    const calcCost: (OfferPayload, Usage) -> string
    const db: JobStore
    const rpc: Rpc

    var connectionNonce: nat
    var jobProcessors: map<int, Processor>
    var awaitingConnections: map<int, AwaitingConnection>

    ghost predicate Valid()
      reads this, db
    {
      db.Valid() && Consistent(db.jobs, connectionNonce, jobProcessors, awaitingConnections)
    }

    /** A provider starts with no nonce issued and no live processor, over
        whatever rows an earlier process left behind. */
    constructor (protocolId: string, offers: map<string, OfferPayload>, parseJson: string -> Option<Json>,
                 validateBody: Json -> Option<RequestBody>, calcCost: (OfferPayload, Usage) -> string,
                 db: JobStore, rpc: Rpc)
      requires db.Valid() && WellShaped(db.jobs)
      ensures Valid()
      ensures this.protocolId == protocolId && this.offers == offers && this.parseJson == parseJson
      ensures this.validateBody == validateBody && this.calcCost == calcCost && this.db == db && this.rpc == rpc
      ensures connectionNonce == 0 && jobProcessors == map[] && awaitingConnections == map[]
    {
      this.protocolId := protocolId;
      this.offers := offers;
      this.parseJson := parseJson;
      this.validateBody := validateBody;
      this.calcCost := calcCost;
      this.db := db;
      this.rpc := rpc;
      connectionNonce := 0;
      jobProcessors := map[];
      awaitingConnections := map[];
    }

    /** `onCreateJob`: validate, then start the job. `streamed` or
        `answered` is what the upstream does for the selected variant,
        `completedAtSync` what the marketplace answers, and `background` how
        the unawaited `process` promise settles. */
    method OnCreateJob(data: CreateJobData, streamed: StreamingUpstream, answered: NonStreamingUpstream,
                       completedAtSync: int)
      returns (r: Result<CreateJobResponse, CallError>, ghost rowid: int, ghost background: Option<ProcessOutcome>)
      requires Valid()
      modifies this, db, rpc
      ensures Valid()
      ensures connectionNonce == old(connectionNonce) && awaitingConnections == old(awaitingConnections)
      ensures match Admit(protocolId, offers, parseJson, validateBody, data)
        case Rejected(e) =>
          && r == Failure(e) && background.None?
          && jobProcessors == old(jobProcessors) && db.jobs == old(db.jobs) && rpc.calls == old(rpc.calls)
        case Refused(p) =>
          && r == Success(InvalidJobArgs(p)) && background.None?
          && jobProcessors == old(jobProcessors) && db.jobs == old(db.jobs) && rpc.calls == old(rpc.calls)
        case Admitted(offer, input) =>
          var ctx := JobContext(data.providerPeerId, data.providerJobId, offer, input, calcCost, completedAtSync);
          var run := RunFor(input.Streams(), streamed, answered, ctx);
          && r == Success(CreateOk)
          && rowid !in old(db.jobs) && rowid !in old(jobProcessors)
          && db.jobs == ApplyEffect(old(db.jobs)[rowid := PendingRow(data.providerPeerId, data.providerJobId, input, input.Streams())],
                                    rowid, run.effect)
          && rpc.calls == old(rpc.calls) + run.calls
          && jobProcessors.Keys == old(jobProcessors).Keys + {rowid}
          && (forall k :: k in old(jobProcessors) ==> jobProcessors[k] == old(jobProcessors)[k])
          && jobProcessors[rowid].Streams() == input.Streams()
          && fresh(jobProcessors[rowid].Buffer())
          && jobProcessors[rowid].Buffer().log == run.frames
          && jobProcessors[rowid].Buffer().closed == run.closes
          && background == Some(run.outcome)
    {
      var admission := Admit(protocolId, offers, parseJson, validateBody, data);
      match admission {
        case Rejected(e) =>
          r, rowid, background := Failure(e), 0, None;
        case Refused(p) =>
          r, rowid, background := Success(InvalidJobArgs(p)), 0, None;
        case Admitted(offer, input) =>
          var ctx := JobContext(data.providerPeerId, data.providerJobId, offer, input, calcCost, completedAtSync);
          var outcome;
          rowid, outcome := StartJob(ctx, streamed, answered);
          background := Some(outcome);
          r := Success(CreateOk);
      }
    }

    /** The accepted branch of `onCreateJob`: insert one pending row whose
        streaming flag is `input.stream ?? false`, run the processor of that
        variant, and register it under the new rowid. */
    method StartJob(ctx: JobContext, streamed: StreamingUpstream, answered: NonStreamingUpstream)
      returns (ghost rowid: int, outcome: ProcessOutcome)
      requires Valid()
      modifies this, db, rpc
      ensures Valid()
      ensures connectionNonce == old(connectionNonce) && awaitingConnections == old(awaitingConnections)
      ensures var streams := ctx.input.Streams();
        var run := RunFor(streams, streamed, answered, ctx);
        && rowid !in old(db.jobs) && rowid !in old(jobProcessors)
        && db.jobs == ApplyEffect(old(db.jobs)[rowid := PendingRow(ctx.providerPeerId, ctx.providerJobId, ctx.input, streams)],
                                  rowid, run.effect)
        && rpc.calls == old(rpc.calls) + run.calls
        && rowid in jobProcessors
        && jobProcessors == old(jobProcessors)[rowid := jobProcessors[rowid]]
        && jobProcessors[rowid].Streams() == streams
        && fresh(jobProcessors[rowid].Buffer())
        && jobProcessors[rowid].Buffer().log == run.frames
        && jobProcessors[rowid].Buffer().closed == run.closes
        && outcome == run.outcome
    {
      var streams := ctx.input.Streams();
      var jobRowid := db.Insert(ctx.providerPeerId, ctx.providerJobId, ctx.input, streams);
      rowid := jobRowid;
      ghost var inserted := db.jobs;
      var processor;
      processor, outcome := Launch(db, rpc, jobRowid, streams, streamed, answered, ctx);
      StartKeepsConsistent(old(db.jobs), connectionNonce, jobProcessors, awaitingConnections, jobRowid,
                           inserted[jobRowid], RunFor(streams, streamed, answered, ctx).effect, processor);
      jobProcessors := jobProcessors[jobRowid := processor];
    }

    /** `onPrepareJobConnection`: for a known (peer, job id) issue the
        current counter value as a decimal nonce bound to the row, then
        advance the counter; otherwise answer JobNotFound and change nothing. */
    method OnPrepareJobConnection(providerPeerId: string, providerJobId: string) returns (r: PrepareResponse)
      requires Valid()
      modifies this
      ensures Valid()
      ensures jobProcessors == old(jobProcessors)
      ensures r == JobNotFound <==> forall k :: k in db.jobs ==> !Matches(db.jobs[k], providerPeerId, providerJobId)
      ensures r == JobNotFound ==>
        connectionNonce == old(connectionNonce) && awaitingConnections == old(awaitingConnections)
      ensures r.PrepareOk? ==>
        && r.nonce == NatToDecimal(old(connectionNonce))
        && connectionNonce == old(connectionNonce) + 1
        && old(connectionNonce) !in old(awaitingConnections)
        && exists k :: k in db.jobs && Matches(db.jobs[k], providerPeerId, providerJobId) &&
             awaitingConnections == old(awaitingConnections)[old(connectionNonce) := AwaitingConnection(k, db.jobs[k].streaming)]
    {
      var found := db.FindFirstByKey(providerPeerId, providerJobId);
      if found.None? {
        return JobNotFound;
      }
      var k := found.value;
      var nonce := connectionNonce;
      connectionNonce := connectionNonce + 1;
      awaitingConnections := awaitingConnections[nonce := AwaitingConnection(k, db.jobs[k].streaming)];
      r := PrepareOk(NatToDecimal(nonce));
    }

    /** `onJobConnection`: redeem a nonce (it stays registered), reuse the
        row's live processor or create, prefetch and register one of the
        stored variant, and connect the reader. `prefetchFault` is how the
        unawaited prefetch settles. */
    method OnJobConnection(nonce: string) returns (r: Result<Connection, CallError>, ghost prefetchFault: Option<Fault>)
      requires Valid()
      modifies this
      ensures Valid()
      ensures connectionNonce == old(connectionNonce) && awaitingConnections == old(awaitingConnections)
      ensures r.Failure? <==> !(ParseInt(nonce).Some? && ParseInt(nonce).value in awaitingConnections)
      ensures r.Failure? ==> r.error == UnexpectedNonce && jobProcessors == old(jobProcessors)
      ensures r.Success? ==>
        var a := awaitingConnections[ParseInt(nonce).value];
        && a.jobRowid in jobProcessors
        && r.value == Connection(jobProcessors[a.jobRowid].Buffer().log, jobProcessors[a.jobRowid].Buffer().closed)
        && (a.jobRowid in old(jobProcessors) ==> jobProcessors == old(jobProcessors) && prefetchFault.None?)
        && (a.jobRowid !in old(jobProcessors) ==>
              && jobProcessors.Keys == old(jobProcessors).Keys + {a.jobRowid}
              && (forall k :: k in old(jobProcessors) ==> jobProcessors[k] == old(jobProcessors)[k])
              && jobProcessors[a.jobRowid].Streams() == a.streaming
              && fresh(jobProcessors[a.jobRowid].Buffer())
              && match ReplayFor(a.streaming, db.FindByRowid(a.jobRowid))
                 case Success(frames) => r.value == Connection(frames, true) && prefetchFault.None?
                 case Failure(f) => r.value == Connection([], false) && prefetchFault == Some(f))
      ensures prefetchFault.Some? ==> prefetchFault.value in {StillInProgress, CompletionFieldsMissing}
    {
      prefetchFault := None;
      var n := ParseInt(nonce);
      if n.None? || n.value !in awaitingConnections {
        return Failure(UnexpectedNonce), prefetchFault;
      }
      var job := awaitingConnections[n.value];
      var processor: Processor;
      if job.jobRowid in jobProcessors {
        processor := jobProcessors[job.jobRowid];
      } else {
        ReplayFaultsOnWellShapedRows(db.jobs, job.jobRowid, job.streaming);
        if job.streaming {
          var p := new StreamingCompletionJob(job.jobRowid);
          prefetchFault := p.Prefetch(db);
          processor := StreamingProcessor(p);
        } else {
          var p := new NonStreamingCompletionJob(job.jobRowid);
          prefetchFault := p.Prefetch(db);
          processor := NonStreamingProcessor(p);
        }
        jobProcessors := jobProcessors[job.jobRowid := processor];
      }
      var frames, ended;
      match processor {
        case StreamingProcessor(p) => frames, ended := p.Connect();
        case NonStreamingProcessor(p) => frames, ended := p.Connect();
      }
      r := Success(Connection(frames, ended));
    }
  }

  /** A nonce can be redeemed twice: the second redemption reuses the
      processor the first one registered, so both readers receive the same
      frames and the same end marker. */
  method ReconnectSeesSameFrames(provider: OpenAiProxyProvider, nonce: string)
    returns (first: Result<Connection, CallError>, second: Result<Connection, CallError>)
    requires provider.Valid()
    modifies provider
    ensures provider.Valid()
    ensures first.Success? <==> second.Success?
    ensures first.Success? ==> first.value == second.value
  {
    ghost var fault;
    first, fault := provider.OnJobConnection(nonce);
    second, fault := provider.OnJobConnection(nonce);
  }

  /** The handshake closes: a nonce issued for a job redeems at once into a
      connection to a processor of that row's variant. */
  method PreparedNonceRedeems(provider: OpenAiProxyProvider, providerPeerId: string, providerJobId: string)
    returns (prepared: PrepareResponse, connected: Result<Connection, CallError>)
    requires provider.Valid()
    modifies provider
    ensures provider.Valid()
    ensures prepared.PrepareOk? <==> connected.Success?
    ensures prepared == JobNotFound ==> connected == Failure(UnexpectedNonce)
  {
    prepared := provider.OnPrepareJobConnection(providerPeerId, providerJobId);
    if prepared.PrepareOk? {
      NonceRoundTrip(old(provider.connectionNonce));
      ghost var fault;
      connected, fault := provider.OnJobConnection(prepared.nonce);
    } else {
      connected := Failure(UnexpectedNonce);
    }
  }

  /** Two nonces issued one after the other are different texts, so no two
      awaiting connections share a nonce. */
  method SuccessiveNoncesDiffer(provider: OpenAiProxyProvider, first: (string, string), second: (string, string))
    returns (a: PrepareResponse, b: PrepareResponse)
    requires provider.Valid()
    modifies provider
    ensures provider.Valid()
    ensures a.PrepareOk? && b.PrepareOk? ==> a.nonce != b.nonce
  {
    a := provider.OnPrepareJobConnection(first.0, first.1);
    ghost var middle := provider.connectionNonce;
    b := provider.OnPrepareJobConnection(second.0, second.1);
    if a.PrepareOk? && b.PrepareOk? {
      NonceTextInjective(old(provider.connectionNonce), middle);
    }
  }
}
