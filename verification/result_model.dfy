/**
 * The persisted result row (`app.result_model.Result`) and the store of rows,
 * keyed by job id. The database session is not modelled: a commit is the update
 * of the map.
 */
module ResultModel {
  import opened Common

  /** What `result.result` holds, as the JSON object it encodes: a histogram or an error. */
  datatype Payload = Histogram(counts: map<string, int>) | ErrorMessage(message: string)

  const QpuError: Payload := ErrorMessage("qpu-name wrong or error with aws")
  const CircuitError: Payload := ErrorMessage("URL not found or Error during restoration of braket circuit.")
  const ExecutionFailed: Payload := ErrorMessage("execution failed")

  datatype Row = Row(id: string, complete: bool, result: Option<Payload>, backend: string, shots: int)

  /** `Result(id=..., backend=..., shots=...)`: not complete, no payload yet. */
  function NewRow(id: string, backend: string, shots: int): Row
  {
    Row(id, false, None, backend, shots)
  }

  /** One write of the worker: `result.result = ...; result.complete = True`. */
  function Written(row: Row, payload: Payload): Row
  {
    row.(result := Some(payload), complete := true)
  }

  /** The row after the given writes, in order. */
  function ApplyWrites(row: Row, writes: seq<Payload>): Row
    decreases |writes|
  {
    if writes == [] then row
    else Written(ApplyWrites(row, writes[..|writes| - 1]), writes[|writes| - 1])
  }

  /**
   * Every write completes the row and the last write wins; the id, the backend
   * and the shots are never touched.
   */
  lemma {:induction false} ApplyWritesEffect(row: Row, writes: seq<Payload>)
    ensures var r := ApplyWrites(row, writes);
      && r.id == row.id && r.backend == row.backend && r.shots == row.shots
      && r.complete == (row.complete || writes != [])
      && r.result == if writes == [] then row.result else Some(writes[|writes| - 1])
    decreases |writes|
  {
    if writes != [] {
      ApplyWritesEffect(row, writes[..|writes| - 1]);
    }
  }

  lemma AppendWrite(row: Row, writes: seq<Payload>, payload: Payload)
    ensures ApplyWrites(row, writes + [payload]) == Written(ApplyWrites(row, writes), payload)
  {
    assert (writes + [payload])[..|writes|] == writes;
  }

  class ResultStore {
    var rows: map<string, Row>

    /** Each row is filed under its own id, and a complete row has a payload. */
    ghost predicate Valid()
      reads this
    {
      forall id :: id in rows ==> rows[id].id == id && (rows[id].complete ==> rows[id].result.Some?)
    }

    constructor ()
      ensures Valid() && rows == map[]
    {
      rows := map[];
    }

    /** `db.session.add(result); db.session.commit()` */
    method Add(row: Row)
      requires Valid()
      requires row.id !in rows
      requires row.complete ==> row.result.Some?
      modifies this
      ensures Valid()
      ensures rows == old(rows)[row.id := row]
    {
      rows := rows[row.id := row];
    }

    /** `Result.query.get(id)`, then one write, then `db.session.commit()`. */
    method Complete(id: string, payload: Payload)
      requires Valid()
      requires id in rows
      modifies this
      ensures Valid()
      ensures rows == old(rows)[id := Written(old(rows)[id], payload)]
      ensures rows[id].complete && rows[id].result == Some(payload)
    {
      rows := rows[id := Written(rows[id], payload)];
    }
  }
}
