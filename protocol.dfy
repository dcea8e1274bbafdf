/** The values exchanged with the requester and the upstream completion API:
    JSON values, request bodies, chunks, responses, usage, offers, the
    public payload and the frames written on a job's stream. */
module Protocol {
  import opened Wrappers

  /** A decoded JSON (or CBOR) value. Numbers are kept as integers: the
      model never computes with them. */
  datatype Json =
    | JNull
    | JBool(b: bool)
    | JNum(n: int)
    | JStr(s: string)
    | JArr(items: seq<Json>)
    | JObj(fields: map<string, Json>)

  /** JavaScript truthiness of a decoded value (`if (!request)`). */
  predicate Truthy(j: Json) {
    match j
    case JNull => false
    case JBool(b) => b
    case JNum(n) => n != 0
    case JStr(s) => s != ""
    case JArr(_) => true
    case JObj(_) => true
  }

  /** `"prompt" in x` throws a TypeError unless `x` is an object (arrays are objects). */
  predicate SupportsIn(j: Json) {
    j.JObj? || j.JArr?
  }

  /** Token usage reported by the upstream API. */
  datatype Usage = Usage(promptTokens: nat, completionTokens: nat)

  /** One streamed upstream chunk; `usage` is present on the trailing chunk. */
  datatype Chunk = Chunk(body: Json, usage: Option<Usage>)

  /** One non-streamed upstream response. */
  datatype Response = Response(body: Json, usage: Option<Usage>)

  /** A schema-valid completion request body (prompt style or chat style). */
  datatype RequestBody = RequestBody(fields: map<string, Json>) {
    /** `"prompt" in input`: a completions request rather than a chat request. */
    predicate IsPromptStyle() {
      "prompt" in fields
    }

    /** `input.stream ?? false`; for a boolean or absent `stream` this is also
        the truthiness test `input.stream ? … : …`. */
    predicate Streams() {
      "stream" in fields && fields["stream"] == JBool(true)
    }

    /** `body.model`, when it is a string. */
    function ModelId(): Option<string> {
      if "model" in fields && fields["model"].JStr? then Some(fields["model"].s) else None
    }
  }

  /** The part of an offer the core reads. Prices are the wei strings that
      configuration loading produced; only the cost function reads them. */
  datatype OfferPayload = OfferPayload(
    modelId: string,
    contextSize: nat,
    inputTokenPrice: string,
    outputTokenPrice: string,
    trial: Option<string>)

  /** The request fields a completions-style public payload may reveal. */
  const CompletionsAllowList: set<string> :=
    {"model", "frequency_penalty", "max_tokens", "n", "presence_penalty", "stream",
     "temperature", "top_p"}

  /** The request fields a chat-style public payload may reveal. */
  const ChatAllowList: set<string> :=
    {"model", "store", "reasoning_effort", "frequency_penalty", "max_tokens",
     "max_completion_tokens", "n", "presence_penalty", "response_format", "stream",
     "temperature", "top_p"}

  function AllowList(input: RequestBody): set<string> {
    if input.IsPromptStyle() then CompletionsAllowList else ChatAllowList
  }

  /** The redacted billing summary: selected request fields and the usage. */
  datatype PublicPayload = PublicPayload(request: map<string, Json>, usage: Usage)

  /** `pick(obj, keys)`: the entries of `obj` whose key is listed. */
  function Pick(m: map<string, Json>, keys: set<string>): (r: map<string, Json>)
    ensures r.Keys == m.Keys * keys
    ensures forall k :: k in r ==> r[k] == m[k]
  {
    map k | k in m && k in keys :: m[k]
  }

  /** `{ request: { ...pick(input, allowList) }, response: { usage } }`. */
  function BuildPublicPayload(input: RequestBody, usage: Usage): (p: PublicPayload)
    ensures p.usage == usage
    ensures forall k :: k in p.request ==> k in AllowList(input) && k in input.fields && p.request[k] == input.fields[k]
    ensures forall k :: k in input.fields && k in AllowList(input) ==> k in p.request
  {
    PublicPayload(Pick(input.fields, AllowList(input)), usage)
  }

  /** Free text never leaves through the public payload: prompts and
      messages are not on either allow-list. */
  lemma PublicPayloadHidesContent(input: RequestBody, usage: Usage)
    ensures var p := BuildPublicPayload(input, usage);
      "prompt" !in p.request && "messages" !in p.request
  {
  }

  /** Status of a response prologue. */
  datatype Status = Ok | ServiceError | ProtocolViolation

  /** What a prologue carries besides its status. */
  datatype PrologueDetail =
    | Bare
    | Message(text: string)
    | JobInfo(providerJobId: string, createdAtSync: int)

  /** The `object` tag that distinguishes a streaming epilogue from a chunk. */
  const EpilogueTag: string := "derouter.epilogue"

  /** One record written on a job's stream. */
  datatype Frame =
    | Prologue(status: Status, detail: PrologueDetail)
    | ChunkFrame(chunk: Chunk)
    | ResponseFrame(response: Response)
      /** `{object: "derouter.epilogue", balance_delta, public_payload, completed_at_sync}` */
    | StreamingEpilogue(balanceDelta: Option<string>, publicPayload: PublicPayload, completedAtSync: int)
      /** `{balance_delta, public_payload, completed_at_sync}` */
    | NonStreamingEpilogue(amount: string, publicPayload: PublicPayload, completedAtSync: int)

  /** The `object` field of a frame, where it has one of its own. */
  function ObjectTag(f: Frame): Option<string> {
    if f.StreamingEpilogue? then Some(EpilogueTag) else None
  }

  /** Each upstream chunk written verbatim, in arrival order. */
  function ChunkFrames(chunks: seq<Chunk>): (r: seq<Frame>)
    ensures |r| == |chunks|
    ensures forall i :: 0 <= i < |chunks| ==> r[i] == ChunkFrame(chunks[i])
  {
    if chunks == [] then [] else ChunkFrames(chunks[..|chunks| - 1]) + [ChunkFrame(chunks[|chunks| - 1])]
  }

  /** The usage of the last chunk that carries one: the value the source's
      `if (chunk.usage) usage = chunk.usage` leaves behind. */
  function LastUsage(chunks: seq<Chunk>): Option<Usage> {
    if chunks == [] then None
    else if chunks[|chunks| - 1].usage.Some? then chunks[|chunks| - 1].usage
    else LastUsage(chunks[..|chunks| - 1])
  }

  /** LastUsage is the usage of a chunk after which no chunk carries usage. */
  lemma {:induction false} LastUsageIsLastCarrier(chunks: seq<Chunk>, u: Usage)
    ensures LastUsage(chunks) == Some(u) <==>
      exists i :: 0 <= i < |chunks| && chunks[i].usage == Some(u) &&
        forall j :: i < j < |chunks| ==> chunks[j].usage.None?
  {
    if chunks != [] {
      var n := |chunks| - 1;
      var init := chunks[..n];
      LastUsageIsLastCarrier(init, u);
      if chunks[n].usage.None? {
        if LastUsage(chunks) == Some(u) {
          var i :| 0 <= i < |init| && init[i].usage == Some(u) &&
            forall j :: i < j < |init| ==> init[j].usage.None?;
          assert chunks[i] == init[i];
          assert forall j :: i < j < |chunks| ==> chunks[j].usage.None? by {
            forall j | i < j < |chunks| ensures chunks[j].usage.None? {
              if j < n { assert chunks[j] == init[j]; }
            }
          }
        }
        if exists i :: 0 <= i < |chunks| && chunks[i].usage == Some(u) &&
            forall j :: i < j < |chunks| ==> chunks[j].usage.None? {
          var i :| 0 <= i < |chunks| && chunks[i].usage == Some(u) &&
            forall j :: i < j < |chunks| ==> chunks[j].usage.None?;
          assert i < n;
          assert init[i] == chunks[i];
          assert forall j :: i < j < |init| ==> init[j].usage.None? by {
            forall j | i < j < |init| ensures init[j].usage.None? {
              assert init[j] == chunks[j];
            }
          }
        }
      } else {
        if exists i :: 0 <= i < |chunks| && chunks[i].usage == Some(u) &&
            forall j :: i < j < |chunks| ==> chunks[j].usage.None? {
          var i :| 0 <= i < |chunks| && chunks[i].usage == Some(u) &&
            forall j :: i < j < |chunks| ==> chunks[j].usage.None?;
          assert i == n;
        }
      }
    }
  }

  /** No usage anywhere means no billable usage: the source's `assert(usage)` fails. */
  lemma {:induction false} LastUsageNoneIffNoCarrier(chunks: seq<Chunk>)
    ensures LastUsage(chunks).None? <==> forall i :: 0 <= i < |chunks| ==> chunks[i].usage.None?
  {
    if chunks != [] {
      var n := |chunks| - 1;
      LastUsageNoneIffNoCarrier(chunks[..n]);
      assert forall i :: 0 <= i < n ==> chunks[..n][i] == chunks[i];
    }
  }
}
