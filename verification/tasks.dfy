/**
 * app/tasks.py: the worker's `execute`. It resolves the backend, prepares the
 * circuit from exactly one source, runs it and writes the outcome to the job's
 * result row.
 */
module Tasks {
  import opened Common
  import opened Text
  import opened Circuits
  import opened BraketIr
  import opened ImplementationHandler
  import opened BraketHandler
  import opened ResultModel

  /** The keyword arguments `execute` is enqueued with; an absent string is "". */
  datatype JobParams = JobParams(
    implUrl: string,
    implData: string,
    implLanguage: string,
    inputParams: map<string, string>,
    braketIr: string,
    token: string,
    qpuName: string,
    shots: int,
    bearerToken: string)

  /** The collaborators `execute` reaches through the Braket SDK, urllib, base64 and the AWS account. */
  datatype Runtime = Runtime(
    vocab: Vocabulary,                                          // circuit methods and observables
    parse: string -> Option<Program>,                           // `Program.parse_raw`
    network: Network,                                           // `urlparse` and `urlopen`
    load: (string, map<string, string>) -> Option<seq<Call>>,   // `prepare_code_from_data`
    b64decode: string -> Option<string>,                        // `base64.b64decode(...).decode()`
    devices: string -> DeviceLookup,                            // `AwsDevice(name)`
    run: (Backend, seq<Call>, int) -> Result<TaskBehaviour>)    // `backend.run(...)`, or what it or the polling raises

  predicate IsIrLanguage(language: string)
  {
    Lower(language) == "braket-ir"
  }

  /** Where the circuit comes from. */
  datatype Source =
    | IrText(text: string)        // `braket_ir`
    | IrAtUrl(url: string)        // `impl_url`, in the IR language
    | CodeAtUrl(url: string)      // `impl_url`, as source code
    | IrData(encoded: string)     // `impl_data`, in the IR language
    | CodeData(encoded: string)   // `impl_data`, as source code
    | NoSource

  /** The branches of `execute` that pick the circuit's source. */
  function ChooseSource(job: JobParams): (s: Source)
    ensures s.IrText? <==> job.braketIr != ""
    ensures s.IrText? ==> s.text == job.braketIr
    ensures s.IrAtUrl? || s.CodeAtUrl? <==> job.braketIr == "" && job.implUrl != ""
    ensures s.IrAtUrl? || s.CodeAtUrl? ==> s.url == job.implUrl
    ensures s.IrData? || s.CodeData? <==> job.braketIr == "" && job.implUrl == "" && job.implData != ""
    ensures s.IrData? || s.CodeData? ==> s.encoded == job.implData
    ensures s.IrAtUrl? || s.IrData? <==> !s.IrText? && !s.NoSource? && IsIrLanguage(job.implLanguage)
  {
    if job.braketIr != "" then IrText(job.braketIr)
    else if job.implUrl != "" then
      if IsIrLanguage(job.implLanguage) then IrAtUrl(job.implUrl) else CodeAtUrl(job.implUrl)
    else if job.implData != "" then
      if IsIrLanguage(job.implLanguage) then IrData(job.implData) else CodeData(job.implData)
    else NoSource
  }

  /** A non-empty `braket_ir` is the source whatever `impl_url`, `impl_data` and `impl_language` say. */
  lemma IrTakesPrecedence(job: JobParams, url: string, data: string, language: string)
    requires job.braketIr != ""
    ensures ChooseSource(job.(implUrl := url, implData := data, implLanguage := language)) == IrText(job.braketIr)
  {
  }

  /** Without `braket_ir`, `impl_url` wins over `impl_data`. */
  lemma UrlBeforeData(job: JobParams, data: string)
    requires job.braketIr == "" && job.implUrl != ""
    ensures ChooseSource(job.(implData := data)) == ChooseSource(job)
  {
  }

  /** The language tag is compared without regard to case. */
  lemma LanguageCaseInsensitive(job: JobParams, language: string)
    requires Lower(language) == Lower(job.implLanguage)
    ensures ChooseSource(job.(implLanguage := language)) == ChooseSource(job)
  {
  }

  /**
   * What preparing the circuit yields for each source: the IR is parsed and
   * translated, code is loaded, a download that fails with a URL or HTTP error
   * gives no circuit, and undecodable base64 raises.
   */
  ghost predicate PrepOutcome(job: JobParams, rt: Runtime, o: Outcome)
  {
    match ChooseSource(job)
    case IrText(text) => IrOutcome(text, rt.parse, rt.vocab, o)
    case IrAtUrl(url) =>
      var d := DownloadCode(url, job.bearerToken, rt.network);
      if d.Fetched? then IrOutcome(d.body, rt.parse, rt.vocab, o) else UrlOutcome(d, o)
    case CodeAtUrl(url) =>
      var d := DownloadCode(url, job.bearerToken, rt.network);
      if d.Fetched? then CodeOutcome(d.body, job.inputParams, rt.load, o) else UrlOutcome(d, o)
    case IrData(encoded) =>
      (match rt.b64decode(encoded)
       case None => o == Raises(Base64Error)
       case Some(text) => IrOutcome(text, rt.parse, rt.vocab, o))
    case CodeData(encoded) =>
      (match rt.b64decode(encoded)
       case None => o == Raises(Base64Error)
       case Some(code) => CodeOutcome(code, job.inputParams, rt.load, o))
    case NoSource => o == NoneReturned
  }

  /**
   * The preparation part of `execute`. `bindRequested` says whether
   * `make_bound_circuit` is called with the input parameters.
   */
  method PrepareCircuit(job: JobParams, rt: Runtime) returns (p: Prepared, bindRequested: bool)
    ensures p.Built? ==> fresh(p.circuit)
    ensures bindRequested <==> ChooseSource(job).IrText? && p.Built? && |job.inputParams| > 0
    ensures PrepOutcome(job, rt, OutcomeOf(p))
  {
    bindRequested := false;
    p := NoCircuit;
    if job.braketIr != "" {
      p := PrepareFromBraketIr(job.braketIr, rt.parse, rt.vocab);
      if p.Built? && |job.inputParams| > 0 {
        // `circuit.make_bound_circuit(input_params)`; the bound circuit it returns is not kept
        bindRequested := true;
      }
    } else if job.implUrl != "" {
      if IsIrLanguage(job.implLanguage) {
        p := PrepareFromBraketIrUrl(job.implUrl, job.bearerToken, rt.network, rt.parse, rt.vocab);
      } else {
        p := PrepareFromUrl(job.implUrl, job.inputParams, job.bearerToken, rt.network, rt.load);
      }
    } else if job.implData != "" {
      var decoded := rt.b64decode(job.implData);
      if decoded.None? {
        return PrepFailed(Base64Error), false;
      }
      if IsIrLanguage(job.implLanguage) {
        p := PrepareFromBraketIr(decoded.value, rt.parse, rt.vocab);
      } else {
        p := PrepareFromData(decoded.value, job.inputParams, rt.load);
      }
    }
  }

  /** How far `execute` got with running the circuit. */
  datatype RunOutcome =
    | NotRun                  // preparation raised, so `execute` stopped before running
    | Crashed(error: Raised)  // `execute_job` raised: no backend, no circuit, or the run or the polling raised
    | Ran(result: JobResult)  // `execute_job` returned, or is still polling

  /** The combinations `execute` can produce. */
  predicate Consistent(backend: Option<Backend>, prep: Prepared, run: RunOutcome)
  {
    && (run.NotRun? <==> prep.PrepFailed?)
    && (run.Ran? ==> prep.Built? && backend.Some?)
  }

  /** What `execute` makes of `execute_job`'s outcome. */
  function RunOutcomeOf(r: Result<JobResult>): RunOutcome
  {
    match r
    case Err(e) => Crashed(e)
    case Ok(j) => Ran(j)
  }

  /** The payloads `execute` writes to the row, in order. No write returns early. */
  function Writes(backend: Option<Backend>, prep: Prepared, run: RunOutcome): seq<Payload>
  {
    (if backend.None? then [QpuError] else [])
    + (if prep.NoCircuit? then [CircuitError] else [])
    + RunWrites(run)
  }

  /** The write that follows a run that returned: the counts when there are any, else "execution failed". */
  function RunWrites(run: RunOutcome): seq<Payload>
  {
    match run
    case Ran(Counts(counts)) => if |counts| > 0 then [Histogram(counts)] else [ExecutionFailed]
    case Ran(NoResult) => [ExecutionFailed]
    case _ => []
  }

  /**
   * The row `execute` leaves behind: a missing circuit's error overwrites a
   * missing backend's; a run's counts, when there are any, or else "execution
   * failed"; a job whose backend cannot be resolved is always completed; and,
   * with a resolved backend, a job that raised while preparing, or whose circuit
   * raised while running, or is still polling, is left as it was.
   */
  lemma FinalRow(row: Row, backend: Option<Backend>, prep: Prepared, run: RunOutcome)
    requires Consistent(backend, prep, run)
    ensures var r := ApplyWrites(row, Writes(backend, prep, run));
      && r.id == row.id && r.backend == row.backend && r.shots == row.shots
      && (prep.NoCircuit? ==> r.complete && r.result == Some(CircuitError))
      && (backend.None? ==> r.complete)
      && (backend.None? && !prep.NoCircuit? ==> r.result == Some(QpuError))
      && (run.Ran? && run.result.Counts? && |run.result.counts| > 0 ==>
            r.complete && r.result == Some(Histogram(run.result.counts)))
      && (run.Ran? && (run.result.NoResult? || (run.result.Counts? && |run.result.counts| == 0)) ==>
            r.complete && r.result == Some(ExecutionFailed))
      && (backend.Some? && (prep.PrepFailed? || (prep.Built? && (run.Crashed? || run == Ran(StillPolling)))) ==> r == row)
  {
    var w := Writes(backend, prep, run);
    ApplyWritesEffect(row, w);
    if w == [] {
      assert ApplyWrites(row, w) == row;
    }
  }

  /**
   * A job whose implementation URL, on a host other than the PlanQK platform,
   * answers 404. With `_download_code` as written the preparer raises
   * UnboundLocalError, which escapes `execute` before any circuit error is
   * written: a job with a backend keeps its row pending, and one without shows
   * only the QPU error. With the corrected download the preparer returns None
   * and the row reports the circuit error.
   */
  lemma {:induction false} NotFoundRowAsWritten(row: Row, job: JobParams, rt: Runtime, backend: Option<Backend>, crash: Raised)
    requires ChooseSource(job).IrAtUrl? || ChooseSource(job).CodeAtUrl?
    requires rt.network.netloc(job.implUrl) != PlanqkHost
    requires rt.network.open(HttpRequest(job.implUrl, map[])) == OpenFailed(NotFoundMessage)
    ensures var d := DownloadCodeAsWritten(job.implUrl, job.bearerToken, rt.network);
      && d.DownloadRaised? && UrlOutcome(d, Raises(UnboundLocalError))
      && var r := ApplyWrites(row, Writes(backend, PrepFailed(UnboundLocalError), NotRun));
         && (backend.Some? ==> r == row)
         && (backend.None? ==> r.complete && r.result == Some(QpuError))
    ensures PrepOutcome(job, rt, NoneReturned)
    ensures var r := ApplyWrites(row, Writes(backend, NoCircuit, Crashed(crash)));
      r.complete && r.result == Some(CircuitError)
  {
    NotFoundEscapesPreparers(job.implUrl, job.bearerToken, rt.network);
    NotFoundIsNot401();
    FinalRow(row, backend, PrepFailed(UnboundLocalError), NotRun);
    FinalRow(row, backend, NoCircuit, Crashed(crash));
  }

  /**
   * `execute`. The row must already exist: the route creates it. `lookup` is
   * the outcome of `get_backend`; when it raised, `execute` stops there and
   * writes nothing, and the other results mean nothing. `prepared` is what the
   * preparation handed back, before noise was added to the circuit.
   */
  method Execute(store: ResultStore, jobId: string, job: JobParams, rt: Runtime)
      returns (lookup: Result<Option<Backend>>, prep: Prepared, bindRequested: bool, run: RunOutcome, ghost prepared: Outcome)
    requires store.Valid() && jobId in store.rows
    modifies store
    ensures store.Valid()
    ensures lookup == GetBackend(job.qpuName, rt.devices)
    ensures lookup.Err? ==> store.rows == old(store.rows)
    ensures lookup.Ok? ==> PrepOutcome(job, rt, prepared)
    ensures bindRequested <==> lookup.Ok? && ChooseSource(job).IrText? && prep.Built? && |job.inputParams| > 0
    ensures !prep.Built? ==> prepared == OutcomeOf(prep)
    ensures prep.Built? ==>
              && lookup.Ok? && fresh(prep.circuit) && prepared.BuiltCalls?
              && prep.circuit.calls == prepared.calls + NoiseFor(lookup.value)
    ensures lookup.Ok? ==> Consistent(lookup.value, prep, run)
    ensures lookup.Ok? && prep.Built? && lookup.value.Some? ==>
              run == RunOutcomeOf(Submitted(rt.run(lookup.value.value, prepared.calls + NoiseFor(lookup.value), job.shots)))
    ensures lookup.Ok? ==>
              store.rows == old(store.rows)[jobId := ApplyWrites(old(store.rows)[jobId], Writes(lookup.value, prep, run))]
  {
    ghost var base := store.rows;
    ghost var row := base[jobId];
    ghost var writes: seq<Payload> := [];
    assert store.rows == base[jobId := ApplyWrites(row, writes)];

    lookup := GetBackend(job.qpuName, rt.devices);
    if lookup.Err? {
      // the exception leaves `execute` before anything is prepared or written
      prep, bindRequested, run, prepared := NoCircuit, false, NotRun, NoneReturned;
      return;
    }
    var backend := lookup.value;
    if backend.None? {
      writes := Record(store, jobId, base, row, writes, QpuError);
    }

    prep, bindRequested, writes := PrepareAndRecord(store, jobId, base, row, writes, job, rt);
    prepared := OutcomeOf(prep);
    if prep.PrepFailed? {
      run := NotRun;
      assert Writes(backend, prep, run) == writes;
      return;
    }

    var circuit: Circuit? := if prep.Built? then prep.circuit else null;
    run := RunAndRecord(store, jobId, base, row, writes, circuit, job.shots, backend, rt.run);
    assert run.Ran? ==> prep.circuit == circuit;
    assert Writes(backend, prep, run) == writes + RunWrites(run);
  }

  /** The preparation of `execute` and the write that follows a missing circuit. */
  method PrepareAndRecord(store: ResultStore, jobId: string, ghost base: map<string, Row>, ghost row: Row, ghost writes: seq<Payload>,
                          job: JobParams, rt: Runtime) returns (prep: Prepared, bindRequested: bool, ghost after: seq<Payload>)
    requires store.Valid() && jobId in base
    requires store.rows == base[jobId := ApplyWrites(row, writes)]
    modifies store
    ensures store.Valid()
    ensures prep.Built? ==> fresh(prep.circuit)
    ensures PrepOutcome(job, rt, OutcomeOf(prep))
    ensures bindRequested <==> ChooseSource(job).IrText? && prep.Built? && |job.inputParams| > 0
    ensures after == writes + (if prep.NoCircuit? then [CircuitError] else [])
    ensures store.rows == base[jobId := ApplyWrites(row, after)]
  {
    prep, bindRequested := PrepareCircuit(job, rt);
    after := writes;
    if prep.NoCircuit? {
      after := Record(store, jobId, base, row, writes, CircuitError);
    } else {
      assert writes + [] == writes;
    }
  }

  /** The run of `execute` and the write that follows it. */
  method RunAndRecord(store: ResultStore, jobId: string, ghost base: map<string, Row>, ghost row: Row, ghost writes: seq<Payload>,
                      circuit: Circuit?, shots: int, backend: Option<Backend>,
                      run: (Backend, seq<Call>, int) -> Result<TaskBehaviour>) returns (outcome: RunOutcome)
    requires store.Valid() && jobId in base
    requires store.rows == base[jobId := ApplyWrites(row, writes)]
    modifies store, circuit
    ensures store.Valid()
    ensures !outcome.NotRun?
    ensures outcome.Ran? ==> circuit != null && backend.Some?
    ensures circuit != null && backend.Some? ==> outcome == RunOutcomeOf(Submitted(run(backend.value, circuit.calls, shots)))
    ensures circuit != null ==> circuit.calls == old(circuit.calls) + NoiseFor(backend)
    ensures store.rows == base[jobId := ApplyWrites(row, writes + RunWrites(outcome))]
  {
    var r := ExecuteJob(circuit, shots, backend, run);
    if r.Err? {
      assert writes + RunWrites(Crashed(r.error)) == writes;
      return Crashed(r.error);
    }
    outcome := Ran(r.value);
    match r.value
    case StillPolling =>
      assert writes + RunWrites(outcome) == writes;
    case NoResult =>
      assert RunWrites(outcome) == [ExecutionFailed];
      ghost var after := Record(store, jobId, base, row, writes, ExecutionFailed);
    case Counts(counts) =>
      var payload := if |counts| > 0 then Histogram(counts) else ExecutionFailed;
      assert RunWrites(outcome) == [payload];
      ghost var after := Record(store, jobId, base, row, writes, payload);
  }

  /**
   * One write of `execute` to the job's row, on top of the writes before it.
   * The ghost `base`, `row` and `writes` are the store and the row as the job
   * found them and the writes made so far: the row is always described as
   * `ApplyWrites(row, writes)`, so `Execute` can state its final row as a
   * function of the job's outcome.
   */
  method Record(store: ResultStore, jobId: string, ghost base: map<string, Row>, ghost row: Row, ghost writes: seq<Payload>, payload: Payload)
      returns (ghost after: seq<Payload>)
    requires store.Valid() && jobId in base
    requires store.rows == base[jobId := ApplyWrites(row, writes)]
    modifies store
    ensures store.Valid()
    ensures after == writes + [payload]
    ensures store.rows == base[jobId := ApplyWrites(row, after)]
  {
    AppendWrite(row, writes, payload);
    store.Complete(jobId, payload);
    after := writes + [payload];
  }
}
