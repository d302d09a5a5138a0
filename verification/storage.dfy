/**
 * The `prompts` table: one record per job, keyed by its text id
 * (`id TEXT PRIMARY KEY`), and the meaning of each SQL statement the
 * producer and the worker run against it.
 */
module Storage {
  import opened Options

  /** The closed set of values the `status` column takes. */
  datatype Status = Queued | Processing | Completed {

    /** The text stored in the `status` column and returned in payloads. */
    function Name(): string {
      match this
      case Queued => "queued"
      case Processing => "processing"
      case Completed => "completed"
    }

    /** Position in the lifecycle queued -> processing -> completed. */
    function Rank(): nat {
      match this
      case Queued => 0
      case Processing => 1
      case Completed => 2
    }
  }

  /**
   * One row of `prompts` without its key. `result` is the nullable column;
   * the two timestamps are an abstract, totally ordered clock.
   */
  datatype Job = Job(prompt: string, status: Status, result: Option<string>,
                     createdAt: nat, updatedAt: nat)

  /** The whole table, keyed by `id`: a map cannot hold two rows with one id. */
  type Table = map<string, Job>

  /** The record the producer inserts for a fresh job. */
  function NewJob(prompt: string, now: nat): Job {
    Job(prompt, Queued, None, now, now)
  }

  predicate IsQueued(t: Table, id: string) {
    id in t && t[id].status == Queued
  }

  predicate NoneQueued(t: Table) {
    forall id :: id in t ==> t[id].status != Queued
  }

  /**
   * `id` is a queued row and no queued row was created strictly earlier:
   * what `ORDER BY created_at LIMIT 1` may return (ties are unordered).
   */
  predicate IsOldestQueued(t: Table, id: string) {
    IsQueued(t, id) &&
    forall other :: other in t && t[other].status == Queued ==> t[id].createdAt <= t[other].createdAt
  }

  /**
   * UPDATE prompts SET status = 'processing', updated_at = now
   * WHERE id = ? AND status = 'queued'
   */
  function SetProcessing(t: Table, id: string, now: nat): (r: Table)
    ensures r.Keys == t.Keys
    ensures !IsQueued(t, id) ==> r == t
    ensures IsQueued(t, id) ==>
      && r[id].status == Processing && r[id].updatedAt == now
      && r[id].prompt == t[id].prompt && r[id].result == t[id].result && r[id].createdAt == t[id].createdAt
    ensures forall other :: other in t && other != id ==> r[other] == t[other]
  {
    if IsQueued(t, id) then t[id := t[id].(status := Processing, updatedAt := now)] else t
  }

  /** UPDATE prompts SET status = 'completed', result = ?, updated_at = now WHERE id = ? */
  function SetCompleted(t: Table, id: string, result: string, now: nat): (r: Table)
    ensures r.Keys == t.Keys
    ensures id !in t ==> r == t
    ensures id in t ==>
      && r[id].status == Completed && r[id].result == Some(result) && r[id].updatedAt == now
      && r[id].prompt == t[id].prompt && r[id].createdAt == t[id].createdAt
    ensures forall other :: other in t && other != id ==> r[other] == t[other]
  {
    if id in t then t[id := t[id].(status := Completed, result := Some(result), updatedAt := now)] else t
  }

  /** INSERT INTO prompts ...: the primary key refuses an id already present. */
  function InsertRow(t: Table, id: string, row: Job): (r: Option<Table>)
    ensures r.None? <==> id in t
    ensures r.Some? ==>
      && r.value.Keys == t.Keys + {id}
      && r.value[id] == row
      && forall other :: other in t ==> r.value[other] == t[other]
  {
    if id in t then None else Some(t[id := row])
  }

  /** The shared table, updated in place by the statements below. */
  class PromptTable {
    var rows: Table

    /** A freshly created, empty `prompts` table. */
    constructor ()
      ensures rows == map[]
    {
      rows := map[];
    }

    /** The claim's compare-and-set; `rowcount` is the number of rows it changed. */
    method UpdateToProcessing(id: string, now: nat) returns (rowcount: nat)
      modifies this
      ensures rowcount == if IsQueued(old(rows), id) then 1 else 0
      ensures rows == SetProcessing(old(rows), id, now)
      ensures rowcount == 0 ==> rows == old(rows)
      ensures rowcount == 1 ==>
        && rows.Keys == old(rows).Keys
        && rows[id] == old(rows)[id].(status := Processing, updatedAt := now)
        && forall other :: other in rows && other != id ==> rows[other] == old(rows)[other]
    {
      if IsQueued(rows, id) {
        rows := rows[id := rows[id].(status := Processing, updatedAt := now)];
        rowcount := 1;
      } else {
        rowcount := 0;
      }
    }

    /** The unconditional completion update. */
    method UpdateToCompleted(id: string, result: string, now: nat) returns (rowcount: nat)
      modifies this
      ensures rowcount == if id in old(rows) then 1 else 0
      ensures rows == SetCompleted(old(rows), id, result, now)
      ensures id !in old(rows) ==> rows == old(rows)
      ensures id in old(rows) ==>
        && rows.Keys == old(rows).Keys
        && rows[id] == old(rows)[id].(status := Completed, result := Some(result), updatedAt := now)
        && forall other :: other in rows && other != id ==> rows[other] == old(rows)[other]
    {
      if id in rows {
        rows := rows[id := rows[id].(status := Completed, result := Some(result), updatedAt := now)];
        rowcount := 1;
      } else {
        rowcount := 0;
      }
    }

    /** INSERT; `ok` is false when the primary key already exists (nothing is overwritten). */
    method Insert(id: string, row: Job) returns (ok: bool)
      modifies this
      ensures ok <==> id !in old(rows)
      ensures ok ==> Some(rows) == InsertRow(old(rows), id, row)
      ensures ok ==> rows == old(rows)[id := row] && rows.Keys == old(rows).Keys + {id}
      ensures !ok ==> rows == old(rows)
    {
      ok := id !in rows;
      if ok {
        rows := rows[id := row];
      }
    }
  }
}
