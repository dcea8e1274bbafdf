/** The database handle's view of the `jobs` table: an insert that assigns
    the next rowid, the two update statements, and the two lookups. */
module JobStore {
  import opened Wrappers
  import opened Protocol
  import opened JobSchema

  class JobStore {
    var jobs: JobTable
    /** The rowid SQLite gives the next insert (rows are never deleted). */
    var nextRowid: int

    ghost predicate Valid()
      reads this
    {
      nextRowid >= 1 && forall k :: k in jobs ==> 1 <= k < nextRowid
    }

    constructor ()
      ensures Valid() && jobs == map[]
    {
      jobs := map[];
      nextRowid := 1;
    }

    /** `insert(jobs).values({...}).returning({rowid})`. */
    method Insert(peerId: string, jobId: string, input: RequestBody, streaming: bool) returns (rowid: int)
      requires Valid()
      modifies this
      ensures Valid()
      ensures rowid !in old(jobs)
      ensures jobs == old(jobs)[rowid := PendingRow(peerId, jobId, input, streaming)]
    {
      rowid := nextRowid;
      jobs := jobs[rowid := PendingRow(peerId, jobId, input, streaming)];
      nextRowid := nextRowid + 1;
    }

    /** `update(jobs).set({openaiError})`, with no `where` clause. */
    method SetOpenAiErrorOnAll(message: string)
      modifies this`jobs
      ensures jobs == SetErrorOnAll(old(jobs), message)
    {
      jobs := SetErrorOnAll(jobs, message);
    }

    /** The completion update, filtered by rowid. */
    method CompleteRow(rowid: int, output: StoredOutput, completedAtSync: int,
                       balanceDelta: string, publicPayload: PublicPayload)
      modifies this`jobs
      ensures jobs == CompleteWhere(old(jobs), rowid, output, completedAtSync, balanceDelta, publicPayload)
    {
      jobs := CompleteWhere(jobs, rowid, output, completedAtSync, balanceDelta, publicPayload);
    }

    /** `findFirst({where: eq(rowid, id)})`. */
    function FindByRowid(rowid: int): (r: Option<JobRow>)
      reads this
      ensures r.Some? <==> rowid in jobs
      ensures r.Some? ==> r.value == jobs[rowid]
    {
      if rowid in jobs then Some(jobs[rowid]) else None
    }

    /** `findFirst({where: peer = p and job id = j})`: some matching row,
        since the index over the pair is not unique. */
    method FindFirstByKey(peerId: string, jobId: string) returns (r: Option<int>)
      ensures r.Some? ==> r.value in jobs && Matches(jobs[r.value], peerId, jobId)
      ensures r.None? <==> forall k :: k in jobs ==> !Matches(jobs[k], peerId, jobId)
    {
      if k :| k in jobs && Matches(jobs[k], peerId, jobId) {
        r := Some(k);
      } else {
        r := None;
      }
    }
  }
}
