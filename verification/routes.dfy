/**
 * app/routes.py: the HTTP endpoints. `execute` queues a job and creates its
 * result row; `results/<id>` reads the row back; the transpilation and
 * calibration endpoints refuse; `version` reports the API version.
 */
module Routes {
  import opened Common
  import opened Text
  import opened ResultModel
  import opened ResponseSchemas
  import opened Tasks

  /** The deserialised body of `POST /execute`; an absent key is None. */
  datatype ExecutionRequest = ExecutionRequest(
    qpuName: Option<string>,
    implLanguage: Option<string>,
    implUrl: Option<string>,
    implData: Option<string>,
    braketIr: Option<string>,
    bearerToken: Option<string>,
    shots: Option<int>,
    inputParams: Option<map<string, string>>,
    token: Option<string>)

  const DefaultShots: int := 1024
  const ResultsPath: string := "/braket-service/api/v1.0/results/"

  /** `json.get(key, default)` on a string field. */
  function GetOr(o: Option<string>, default: string): (s: string)
    ensures o.Some? ==> s == o.value
    ensures o.None? ==> s == default
  {
    if o.Some? then o.value else default
  }

  /** A request is queued only when it names a QPU with a non-empty string. */
  predicate Accepts(req: ExecutionRequest)
  {
    req.qpuName.Some? && req.qpuName.value != ""
  }

  function Shots(req: ExecutionRequest): int
  {
    if req.shots.Some? then req.shots.value else DefaultShots
  }

  /**
   * The token the job is given and the input parameters it keeps: a `token`
   * entry of the input parameters wins and empties them; else a non-empty
   * `token` of the request; else "".
   */
  function SelectToken(params: Option<map<string, string>>, requestToken: Option<string>): (r: (string, map<string, string>))
    ensures params.Some? && "token" in params.value ==> r == (params.value["token"], map[])
    ensures !(params.Some? && "token" in params.value) ==>
              && r.1 == (if params.Some? then params.value else map[])
              && r.0 == GetOr(requestToken, "")
  {
    if params.Some? && "token" in params.value then (params.value["token"], map[])
    else
      var kept := if params.Some? then params.value else map[];
      if requestToken.Some? && requestToken.value != "" then (requestToken.value, kept) else ("", kept)
  }

  /** The keyword arguments `execute_circuit` enqueues `app.tasks.execute` with. */
  function ToJob(req: ExecutionRequest): (job: JobParams)
    ensures job.qpuName == GetOr(req.qpuName, "")
    ensures job.shots == (if req.shots.Some? then req.shots.value else DefaultShots)
    ensures job.braketIr == GetOr(req.braketIr, "") && job.implUrl == GetOr(req.implUrl, "")
    ensures job.implData == GetOr(req.implData, "") && job.implLanguage == GetOr(req.implLanguage, "")
    ensures job.bearerToken == GetOr(req.bearerToken, "")
    ensures (job.token, job.inputParams) == SelectToken(req.inputParams, req.token)
  {
    var (token, params) := SelectToken(req.inputParams, req.token);
    JobParams(
      implUrl := GetOr(req.implUrl, ""),
      implData := GetOr(req.implData, ""),
      implLanguage := GetOr(req.implLanguage, ""),
      inputParams := params,
      braketIr := GetOr(req.braketIr, ""),
      token := token,
      qpuName := GetOr(req.qpuName, ""),
      shots := Shots(req),
      bearerToken := GetOr(req.bearerToken, ""))
  }

  /** The `Location` of a job's result: the results path followed by the job id. */
  function ResultLocation(id: string): (loc: string)
    ensures StartsWith(loc, ResultsPath)
    ensures loc[|ResultsPath|..] == id
  {
    ResultsPath + id
  }

  datatype QueuedJob = QueuedJob(id: string, job: JobParams)

  /** The rq queue of the worker. */
  class JobQueue {
    var jobs: seq<QueuedJob>

    constructor ()
      ensures jobs == []
    {
      jobs := [];
    }

    /** `app.execute_queue.enqueue('app.tasks.execute', ...)`; the id is the one rq assigns. */
    method Enqueue(id: string, job: JobParams)
      modifies this
      ensures jobs == old(jobs) + [QueuedJob(id, job)]
    {
      jobs := jobs + [QueuedJob(id, job)];
    }
  }

  datatype ExecuteResponse =
    | Rejected(status: int)
    | Accepted(status: int, location: string, response: ExecutionResponse)

  /**
   * `POST /execute`. `jobId` is the id rq gives the new job; the row created
   * for it is new to the store. The answer is the `ExecutionResponse` object the
   * route returns, with its status and its `Location` header.
   */
  method ExecuteCircuit(req: ExecutionRequest, jobId: string, queue: JobQueue, store: ResultStore)
      returns (resp: ExecuteResponse)
    requires store.Valid() && jobId !in store.rows
    modifies queue, store
    ensures store.Valid()
    ensures !Accepts(req) ==> resp == Rejected(400) && queue.jobs == old(queue.jobs) && store.rows == old(store.rows)
    ensures Accepts(req) ==>
              && resp == Accepted(202, ResultLocation(jobId), ExecutionResponse(ResultLocation(jobId)))
              && queue.jobs == old(queue.jobs) + [QueuedJob(jobId, ToJob(req))]
              && store.rows == old(store.rows)[jobId := NewRow(jobId, req.qpuName.value, Shots(req))]
  {
    if req.qpuName.None? || req.qpuName.value == "" {
      return Rejected(400);
    }
    var job := ToJob(req);
    queue.Enqueue(jobId, job);
    store.Add(NewRow(jobId, req.qpuName.value, job.shots));
    var location := ResultLocation(jobId);
    return Accepted(202, location, ExecutionResponse(location));
  }

  /**
   * `GET /results/<id>`: the row filed under the stripped id. A missing row
   * raises on `result.complete`; a complete row shows its decoded payload, its
   * backend and its shots; an incomplete one only its id and state.
   */
  function GetResult(rows: map<string, Row>, resultId: string): (r: Result<ResultResponse>)
    ensures Strip(resultId) !in rows <==> r == Err(AttributeError("complete"))
    ensures r.Ok? ==> Strip(resultId) in rows && r.value.id == rows[Strip(resultId)].id
    ensures r.Ok? ==> r.value.complete == rows[Strip(resultId)].complete
    ensures r.Ok? && r.value.complete ==>
              && r.value.result == rows[Strip(resultId)].result
              && r.value.backend == Some(rows[Strip(resultId)].backend)
              && r.value.shots == Some(rows[Strip(resultId)].shots)
    ensures r.Ok? && !r.value.complete ==> r.value == PendingResponse(r.value.id, false)
  {
    var key := Strip(resultId);
    if key !in rows then Err(AttributeError("complete"))
    else
      var row := rows[key];
      if !row.complete then Ok(PendingResponse(row.id, row.complete))
      else if row.result.None? then Err(TypeError)
      else Ok(ResultResponse(row.id, row.complete, row.result, Some(row.backend), Some(row.shots)))
  }

  /** In a valid store every row that exists can be read: the lookup fails only for an unknown id. */
  lemma ValidRowsReadable(store: ResultStore, resultId: string)
    requires store.Valid()
    ensures GetResult(store.rows, resultId).Ok? <==> Strip(resultId) in store.rows
  {
  }

  /** Whitespace around the id in the URL does not change what is found. */
  lemma PaddedIdFindsSameRow(rows: map<string, Row>, pre: string, id: string, post: string)
    requires AllSpace(pre) && AllSpace(post) && Trimmed(id)
    ensures GetResult(rows, pre + id + post) == GetResult(rows, id)
  {
    StripPadding(pre, id, post);
  }

  /** Right after `execute` accepted a job, its location leads to a row that is still pending. */
  lemma LocationLeadsToPendingRow(rows: map<string, Row>, id: string, backend: string, shots: int)
    requires Trimmed(id)
    ensures var loc := ResultLocation(id);
      GetResult(rows[id := NewRow(id, backend, shots)], loc[|ResultsPath|..]) == Ok(PendingResponse(id, false))
  {
  }

  /**
   * A job whose QPU cannot be resolved is reported complete: with the circuit
   * error when no circuit could be restored either, else with the QPU error,
   * together with the backend name and shots the route stored.
   */
  lemma UnknownQpuReported(rows: map<string, Row>, id: string, qpu: string, shots: int,
                           prep: ImplementationHandler.Prepared, run: RunOutcome)
    requires Trimmed(id)
    requires Consistent(None, prep, run)
    ensures var row := ApplyWrites(NewRow(id, qpu, shots), Writes(None, prep, run));
      GetResult(rows[id := row], id)
        == Ok(ResultResponse(id, true, Some(if prep.NoCircuit? then CircuitError else QpuError), Some(qpu), Some(shots)))
  {
    var row := ApplyWrites(NewRow(id, qpu, shots), Writes(None, prep, run));
    FinalRow(NewRow(id, qpu, shots), None, prep, run);
    assert row == Row(id, true, Some(if prep.NoCircuit? then CircuitError else QpuError), qpu, shots);
    assert Strip(id) == id;
  }

  /**
   * A job whose circuit raises while running on a resolved backend (submission
   * refused, a status or result query that fails) is never written: its result
   * reads back as pending for good.
   */
  lemma RaisingRunStaysPending(rows: map<string, Row>, id: string, qpu: string, shots: int,
                               backend: BraketHandler.Backend, circuit: Circuits.Circuit, error: Raised)
    requires Trimmed(id)
    ensures var row := ApplyWrites(NewRow(id, qpu, shots), Writes(Some(backend), ImplementationHandler.Built(circuit), Crashed(error)));
      GetResult(rows[id := row], id) == Ok(PendingResponse(id, false))
  {
    FinalRow(NewRow(id, qpu, shots), Some(backend), ImplementationHandler.Built(circuit), Crashed(error));
    assert Strip(id) == id;
  }

  /**
   * The `to_json` map of a completed job's response carries all five fields
   * exactly when its payload is a non-empty mapping, its backend name is not
   * empty and its shots are not 0; otherwise it carries only id and complete.
   */
  lemma CompleteRowJson(rows: map<string, Row>, resultId: string)
    requires Strip(resultId) in rows
    requires rows[Strip(resultId)].complete && rows[Strip(resultId)].result.Some?
    ensures GetResult(rows, resultId).Ok?
    ensures var row := rows[Strip(resultId)];
      var j := ResultResponseJson(GetResult(rows, resultId).value);
      && (j.Keys == FullKeys <==> PayloadTruthy(row.result.value) && row.backend != "" && row.shots != 0)
      && (j.Keys != FullKeys ==> j.Keys == ShortKeys)
  {
  }

  /** The `to_json` map of a pending job's response has only its id and state. */
  lemma PendingRowJson(rows: map<string, Row>, resultId: string)
    requires Strip(resultId) in rows && !rows[Strip(resultId)].complete
    ensures ResultResponseJson(GetResult(rows, resultId).value).Keys == ShortKeys
  {
  }

  /** An `abort`: its status, and the response text when the route gives one. */
  datatype HttpError = HttpError(status: int, message: Option<string>)

  /** `POST /transpile`: Braket circuits are not transpiled before execution, so the request is refused. */
  function Transpile(): (e: HttpError)
    ensures e.status == 404
    ensures e.message == Some("The Braket Service does not support transpilation")
  {
    HttpError(404, Some("The Braket Service does not support transpilation"))
  }

  /** `POST /calculate-calibration-matrix`: not supported, refused with the framework's own 404 page. */
  function CalculateCalibrationMatrix(): (e: HttpError)
    ensures e.status == 404 && e.message.None?
  {
    HttpError(404, None)
  }

  /** `GET /version` */
  function Version(): (body: map<string, string>)
    ensures body.Keys == {"version"} && body["version"] == "1.0"
  {
    map["version" := "1.0"]
  }
}
