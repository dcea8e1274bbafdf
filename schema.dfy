/** The `jobs` table: one row per job, keyed by its integer rowid. */
module JobSchema {
  import opened Wrappers
  import opened Protocol

  /** What the `output` column holds once a job completes: the JSON of the
      chunk list (streaming) or of the single response (non-streaming). */
  datatype StoredOutput = ChunkList(chunks: seq<Chunk>) | SingleResponse(response: Response)

  /** A row of `jobs`. The four identity columns are NOT NULL; the five
      result columns are nullable and stay absent until written. */
  datatype JobRow = JobRow(
    providerPeerId: string,
    providerJobId: string,
    input: RequestBody,
    streaming: bool,
    output: Option<StoredOutput>,
    balanceDelta: Option<string>,
    publicPayload: Option<PublicPayload>,
    openaiError: Option<string>,
    completedAtSync: Option<int>)

  /** The table, keyed by the INTEGER PRIMARY KEY `rowid`. */
  type JobTable = map<int, JobRow>

  /** Truthiness of a nullable text column: the empty string is falsy. */
  predicate HasText(o: Option<string>) {
    o.Some? && o.value != ""
  }

  /** Truthiness of a nullable integer column: zero is falsy. */
  predicate HasSync(o: Option<int>) {
    o.Some? && o.value != 0
  }

  /** The (provider_peer_id, provider_job_id) lookup key; the index over it
      is not unique, so several rows may match. */
  predicate Matches(row: JobRow, peerId: string, jobId: string) {
    row.providerPeerId == peerId && row.providerJobId == jobId
  }

  /** A freshly inserted row. */
  function PendingRow(peerId: string, jobId: string, input: RequestBody, streaming: bool): JobRow {
    JobRow(peerId, jobId, input, streaming, None, None, None, None, None)
  }

  /** The columns a job keeps for life. */
  predicate SameIdentity(a: JobRow, b: JobRow) {
    a.providerPeerId == b.providerPeerId && a.providerJobId == b.providerJobId &&
    a.input == b.input && a.streaming == b.streaming
  }

  /** Every stored output has the shape its streaming flag calls for. */
  ghost predicate WellShaped(t: JobTable) {
    forall k :: k in t && t[k].output.Some? ==> (t[k].output.value.ChunkList? <==> t[k].streaming)
  }

  /** `update(jobs).set({openaiError: message})` with no `where`: every row. */
  function SetErrorOnAll(t: JobTable, message: string): (r: JobTable)
    ensures r.Keys == t.Keys
    ensures forall k :: k in t ==> SameIdentity(t[k], r[k]) && r[k].output == t[k].output
    ensures forall k :: k in t ==> r[k].openaiError == Some(message)
    ensures forall k :: k in t ==>
      && r[k].balanceDelta == t[k].balanceDelta
      && r[k].publicPayload == t[k].publicPayload
      && r[k].completedAtSync == t[k].completedAtSync
  {
    map k | k in t :: t[k].(openaiError := Some(message))
  }

  /** `update(jobs).set({output, completedAtSync, balanceDelta, publicPayload})
      .where(rowid = id)`: that one row, if it exists. */
  function CompleteWhere(t: JobTable, rowid: int, output: StoredOutput, completedAtSync: int,
                         balanceDelta: string, publicPayload: PublicPayload): (r: JobTable)
    ensures r.Keys == t.Keys
    ensures forall k :: k in t ==> SameIdentity(t[k], r[k]) && r[k].openaiError == t[k].openaiError
    ensures forall k :: k in t && k != rowid ==> r[k] == t[k]
    ensures rowid in t ==>
      && r[rowid].output == Some(output) && r[rowid].completedAtSync == Some(completedAtSync)
      && r[rowid].balanceDelta == Some(balanceDelta) && r[rowid].publicPayload == Some(publicPayload)
  {
    if rowid in t then
      t[rowid := t[rowid].(output := Some(output), completedAtSync := Some(completedAtSync),
                           balanceDelta := Some(balanceDelta), publicPayload := Some(publicPayload))]
    else t
  }

  /** The table write a job's processing ends with. */
  datatype DbEffect =
    | NoWrite
    | ErrorOnAll(message: string)
    | Complete(output: StoredOutput, completedAtSync: int, balanceDelta: string, publicPayload: PublicPayload)

  function ApplyEffect(t: JobTable, rowid: int, e: DbEffect): (r: JobTable)
    ensures r.Keys == t.Keys
    ensures forall k :: k in t ==> SameIdentity(t[k], r[k])
  {
    match e
    case NoWrite => t
    case ErrorOnAll(m) => SetErrorOnAll(t, m)
    case Complete(o, c, b, p) => CompleteWhere(t, rowid, o, c, b, p)
  }

  /** A write whose output has the shape of the written row's flag keeps
      the table well shaped; the error write never touches outputs. */
  lemma EffectKeepsShape(t: JobTable, rowid: int, e: DbEffect)
    requires WellShaped(t)
    requires e.Complete? && rowid in t ==> (e.output.ChunkList? <==> t[rowid].streaming)
    ensures WellShaped(ApplyEffect(t, rowid, e))
  {
  }

  /** The error write has no rowid filter, so it also marks rows that had
      already completed: such a row ends up with both an output and an
      error, although a finished job has one or the other. */
  lemma ErrorMarksCompletedRows(t: JobTable, other: int, rowid: int, message: string)
    requires rowid in t && rowid != other && t[rowid].output.Some? && t[rowid].openaiError.None?
    ensures var r := ApplyEffect(t, other, ErrorOnAll(message));
      r[rowid].output == t[rowid].output && r[rowid].openaiError == Some(message)
  {
  }
}
