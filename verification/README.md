# braket-service in Dafny

A model of the Braket service. This is a small web service that takes a quantum circuit and runs it on an Amazon Braket device or on the local density-matrix simulator. The circuit arrives in one of three forms:

- as Braket IR (JSON) text;
- as a URL of IR or source code;
- as base64-encoded IR or code.

The service stores the outcome in a result row that clients poll.

The model covers five parts of the code:

- **IR translation** (`app/implementation_handler.py`).
  - A parsed program becomes a sequence of calls on a circuit. The circuit is a class recording call records: method name, positional arguments, keyword arguments.
  - Each instruction gives one call, in order. Matrix entries `[re, im]` are rebuilt into complex numbers entry by entry.
  - Result types are dispatched three ways.
- **The download gate** in front of `urlopen`. It decides, from host and token, whether to reject with 401, add an `Authorization` header, or add none.
- **The worker** (`app/tasks.py`, `app/braket_handler.py`).
  - Backend selection by case-insensitive name.
  - Choice of circuit source: IR text, then URL, then inline data, with an `impl_language` switch.
  - Noise, added only on the local simulator.
  - The polling loop, decided by the first final status.
  - The sequence of writes to the result row. Every write completes the row, and no write returns early, so the last write wins.
- **The routes** (`app/routes.py`).
  - The 400 check, the shots default and token precedence.
  - Row creation and the `Location` of the result.
  - The complete and pending branches of the result lookup.
  - The fixed answers of the transpile, calibration and version endpoints.
- **Response classes** (`app/response_schemas.py`): the response objects the routes return and the `to_json` maps of both classes. Neither `to_json` is called on the served path.

External objects are parameters of the model. This covers the Braket `Program` parser, `urlparse`/`urlopen`, `base64`, the loader of downloaded source, the AWS device lookup `AwsDevice(name)` (it accepts the name, rejects it with ValueError, or raises something else), and the task a backend runs, which is given as the statuses it will report and its counts. The database is a class holding a map of rows. The job queue is a class holding a sequence of queued jobs.

Files:

- `common.dfy`: Option, Result and the raised exceptions.
- `text.dfy`: ASCII `lower`/`upper`, `startswith`, `find`, `strip`.
- `circuits.dfy`: the recorded circuit.
- `braket_ir.dfy`: the parsed IR.
- `implementation_handler.dfy`, `braket_handler.dfy`, `tasks.dfy`, `routes.dfy`, `response_schemas.dfy`: one per source file.
- `result_model.dfy`: the result row and the store of rows.

The code is what this model follows; there is no serialisation round trip to model:

- The service has no circuit encoder and no width, depth or metrics computation. The transpile endpoint always refuses.
- A job can write its row twice: a missing backend's error can be followed by a missing circuit's error. It is never followed by a run's outcome, because `backend.run` raises when there is no backend.

`app/result_model.py` is not part of this model. The row's fields (`id`, `complete`, `result`, `backend`, `shots`) are those the routes and the worker read and write.

## Model

| member | source | states |
|---|---|---|
| ImplementationHandler.RebuildMatrix | app/implementation_handler.py:101-105 | the rebuilt matrix has the raw matrix's row count and row lengths, and the entry at row r, column i is `complex(re, im)` of the raw entry at the same place |
| ImplementationHandler.RebuildMatrices | app/implementation_handler.py:91-97 | every matrix of the list is rebuilt, in order, with its shape kept |
| ImplementationHandler.InstructionCall | app/implementation_handler.py:84-131 | the call succeeds exactly when the kind names a circuit method and a matrix-bearing instruction has targets; `matrices` is checked before `matrix`; `matrices` gives the targets list as the one positional argument and the keyword `matrices`; `matrix` gives only the keywords `matrix` and `targets`; any other instruction passes controls, targets and angle positionally and probability/gamma by keyword; a failure is the AttributeError of the missing name |
| ImplementationHandler.PlainGateLayout | app/implementation_handler.py:107-128 | for a plain gate, controls and targets come first and are qubit indices; the angle, when present, is the last positional argument; `probability` and `gamma` are keywords exactly when the instruction has them and never positional |
| ImplementationHandler.ResultTypeCall | app/implementation_handler.py:137-158 | `statevector` gives `state_vector()`; `densitymatrix` gives `density_matrix(target=targets)`; any other type gives a call of that name with the observable named by its first element upper-cased, and with states and targets passed through; it fails exactly on an unknown method, an empty observable list or an unknown observable, with that error |
| ImplementationHandler.ObservableCaseInsensitive | app/implementation_handler.py:150-151 | two result types whose observables differ only in letter case give the same call |
| ImplementationHandler.TranslateProgram | app/implementation_handler.py:79-159 | a program translates exactly when each instruction and each result type does and the program has a result list; the new circuit then holds one call per instruction, in order, followed by one call per result type, in order; a program without `results` whose instructions all translate raises TypeError on iterating None |
| ImplementationHandler.TranslationDeterministic | app/implementation_handler.py:84-158 | the calls a program translates to are determined by the program |
| ImplementationHandler.PrepareFromBraketIr | app/implementation_handler.py:79-82 | text that does not parse raises; otherwise a circuit is built exactly when the program is translatable, and it holds the program's translation |
| ImplementationHandler.PrepareFromData | app/implementation_handler.py:34-65 | the circuit is the one the loaded code provides; a load that raises is passed on |
| ImplementationHandler.AuthGate | app/implementation_handler.py:175-185 | on host `platform.planqk.de` an empty token or one starting with "Bearer" is rejected, otherwise the header is "Bearer " + token; any other host gets no header |
| ImplementationHandler.SingleBearerPrefix | app/implementation_handler.py:180-185 | an authorised request's header is "Bearer " followed by the token, which is not empty and does not itself start with "Bearer" |
| ImplementationHandler.DownloadCodeAsWritten | app/implementation_handler.py:172-201 | `_download_code` as written: a rejected token is Unauthorized, and no outcome is ever an HTTPError/URLError |
| ImplementationHandler.NotFoundEscapesPreparers | app/implementation_handler.py:187-198 | as written, an HTTP 404 from `urlopen` on a host other than the PlanQK platform surfaces as UnboundLocalError, whatever the token, and the URL preparers let it through instead of returning None |
| ImplementationHandler.DownloadCode | app/implementation_handler.py:172-201 | the download yields the body exactly when the gate admits the request and the open returns a code other than 401; a rejection is Unauthorized; every other failure is Unauthorized or a download error |
| ImplementationHandler.RejectedBeforeOpening | app/implementation_handler.py:175-183 | a rejected token is refused whatever the network would answer: nothing is opened |
| ImplementationHandler.UnauthorisedResponses | app/implementation_handler.py:192-199 | a 401 status code, or "401" in the message of a failed open, gives Unauthorized |
| ImplementationHandler.PrepareFromUrl | app/implementation_handler.py:68-76 | a download error gives no circuit (None); an Unauthorized abort propagates; a fetched body is loaded as code |
| ImplementationHandler.PrepareFromBraketIrUrl | app/implementation_handler.py:162-169 | a download error gives no circuit (None); an Unauthorized abort propagates; a fetched body is prepared as IR |
| BraketHandler.GetBackend | app/braket_handler.py:27-35 | the `braket_dm` local simulator exactly when the name lower-cased is "local-simulator"; otherwise the device of that name when `AwsDevice` accepts it, None exactly when it rejects the name with ValueError, and any other exception from `AwsDevice` passed on |
| BraketHandler.FirstFinal | app/braket_handler.py:51-57 | the position of the first COMPLETED, FAILED or CANCELLED status, with none before it, or none at all |
| BraketHandler.AwaitResult | app/braket_handler.py:51-59 | the result is the counts when the first final status is COMPLETED and None when it is FAILED or CANCELLED; states are polled up to and including the first final status; the counts are fetched once, and only after COMPLETED |
| BraketHandler.RunningStatusesRepoll | app/braket_handler.py:52-57 | any number of non-final statuses before a trace leave its result unchanged |
| BraketHandler.LaterStatusesIgnored | app/braket_handler.py:52-59 | once a final status has been reported, later statuses do not change the result |
| BraketHandler.ExecuteJob | app/braket_handler.py:43-59 | depolarizing noise of probability 0.1 is applied to gates, readout and initialization exactly when the backend is the local simulator; the circuit is then run and its result is that of the polling loop over the statuses the task reports; an exception from submitting or polling is passed on; a missing backend or circuit raises |
| Tasks.ChooseSource | app/tasks.py:42-57 | `braket_ir` is the source when non-empty; else `impl_url`; else `impl_data`; the IR form is chosen for URL and data exactly when `impl_language` lower-cased is "braket-ir" |
| Tasks.IrTakesPrecedence | app/tasks.py:42-45 | a non-empty `braket_ir` is used whatever `impl_url`, `impl_data` and `impl_language` say |
| Tasks.UrlBeforeData | app/tasks.py:47-52 | without `braket_ir`, `impl_url` wins over `impl_data` |
| Tasks.LanguageCaseInsensitive | app/tasks.py:48-54 | the language switch ignores letter case |
| Tasks.PrepareCircuit | app/tasks.py:41-57 | each source is prepared by its preparer, the URL sources through the corrected download; `impl_data` is base64-decoded first; a failed decode raises; no source gives no circuit; parameters are bound only on the `braket_ir` path, only for a built circuit and non-empty parameters |
| Tasks.FinalRow | app/tasks.py:33-80 | with no early return the last write wins: a missing circuit's error overwrites the QPU error; an unresolvable backend always completes the row; non-empty counts are written as the result; None or empty counts write "execution failed"; with a resolved backend, a job that raised while preparing, whose circuit raised while running, or that is still polling leaves the row as it was; id, backend and shots never change |
| Tasks.NotFoundRowAsWritten | app/tasks.py:33-63 | as written, a job whose implementation URL answers 404 never gets the circuit error: the row stays pending when the backend is known and shows only the QPU error otherwise; with the corrected download the preparation returns None and the row shows the circuit error |
| Tasks.Execute | app/tasks.py:29-80 | the backend is resolved by name; when the lookup raises, `execute` stops and the row is left as it was; otherwise the preparation's outcome is the one its source's preparer gives (the same outcome as `PrepareCircuit`), and binding is requested exactly as there; the circuit that is run is the prepared calls followed by the noise on the local simulator; with a circuit and a backend the run's outcome is that circuit's verdict, or the exception submitting or polling it raised; without either, the run raises; the row becomes the job's row after the writes the job made, in order |
| ResultModel.ApplyWritesEffect | app/tasks.py:35-37 | every write sets `complete` together with a payload, and the last write's payload is the result |
| ResultModel.ResultStore.Complete | app/tasks.py:72-75 | one write completes the row with the payload and changes no other row |
| ResultModel.ResultStore.Add | app/routes.py:91-93 | a new row is filed under its id |
| Routes.SelectToken | app/routes.py:80-86 | a `token` entry of the input parameters wins and empties them; otherwise a non-empty request token; otherwise "" |
| Routes.ToJob | app/routes.py:70-90 | the job gets the request's fields, absent ones as "", shots defaulting to 1024, and the token and parameters that token precedence chooses |
| Routes.ResultLocation | app/routes.py:96 | the location is "/braket-service/api/v1.0/results/" followed by the job id |
| Routes.ExecuteCircuit | app/routes.py:66-100 | a missing or empty QPU name is refused with 400 before anything is queued or stored; otherwise the job is queued, a pending row with the job id, QPU name and shots is created, and 202 is returned with the result's location |
| Routes.GetResult | app/routes.py:109-119 | the row is looked up under the stripped id; a missing row raises; a complete row is shown with its result, backend and shots; an incomplete one with its id and state only |
| Routes.ValidRowsReadable | app/routes.py:113-119 | in a consistent store the lookup succeeds exactly for ids that have a row |
| Routes.PaddedIdFindsSameRow | app/routes.py:113 | whitespace around the id in the URL does not change the answer |
| Routes.LocationLeadsToPendingRow | app/routes.py:91-96 | the location returned for a new job leads to its row, shown as pending |
| Routes.RaisingRunStaysPending | app/tasks.py:67-80 | a job whose circuit raises while running on a resolved backend is never written, and its result reads back as pending |
| Routes.UnknownQpuReported | app/routes.py:109-119 | a job whose QPU cannot be resolved reads back complete, with the circuit error when no circuit was restored either and with the QPU error otherwise |
| Routes.CompleteRowJson | app/response_schemas.py:23-28 | the `to_json` map of a complete row's response has five keys exactly when its payload is truthy, its backend is non-empty and its shots are non-zero; otherwise only id and complete |
| Routes.PendingRowJson | app/response_schemas.py:23-28 | the `to_json` map of a pending row's response has only id and complete |
| Routes.Transpile | app/routes.py:40-46 | always 404, "The Braket Service does not support transpilation" |
| Routes.CalculateCalibrationMatrix | app/routes.py:103-106 | always 404, with no response text of the route's own |
| Routes.Version | app/routes.py:122-126 | always `{"version": "1.0"}` |
| ResponseSchemas.ExecutionResponseJson | app/response_schemas.py:10-12 | the `to_json` map is exactly `{"Location": location}` |
| ResponseSchemas.PendingResponse | app/response_schemas.py:16-21 | result, backend and shots default to None |
| ResponseSchemas.ResultResponseJson | app/response_schemas.py:23-28 | id and complete are always present; the five-key form exactly when result, backend and shots are all truthy, with their values; otherwise exactly id and complete, including for zero shots and an empty result mapping |
| Text.Strip | app/routes.py:113 | the result has no whitespace at either end, is an inner slice of the input with only whitespace around it, and leaves trimmed text unchanged |
| Text.StripPadding | app/routes.py:113 | stripping removes exactly the whitespace added around a trimmed text |

## Left out

- `prepare_code_from_data` writes the code to a temporary module, imports it, and picks `get_circuit(**params)`, `qc`, `p` or `c`. This is dynamic code execution and is the parameter `load`. A load that raises is the error CodeLoadError: no known name, a falsy circuit, or an error in the code.
- Network and file I/O: `request.urlopen`, `res.read().decode`, `urlparse`. They are the parameter `net`, as a netloc function and an open function. Logging and `print` are not modelled.
- ImplementationHandler.DownloadCode: every failed open whose message lacks "401" is a download error. This includes exceptions other than HTTPError/URLError, which the corrected code would let through.
- Braket SDK semantics: gates, `Observable` constructors, noise channels, matrix unitarity checks, simulation and device behaviour. A call is recorded by name and arguments. An observable is its constructor's name. Which circuits a device or the simulator refuses is not modelled. Whether `backend.run`, `task.state()` or `task.result()` raise is part of the parameter `run`.
- Signature errors of the circuit methods are not modelled: wrong argument counts and wrong keyword names (TypeError). A name in the vocabulary accepts any arguments. For example, a result type such as `amplitude` whose method takes `state` is called with `states=` by the translator, which the SDK would refuse; `ResultTypeCall` returns the call.
- numpy complex floats are a pair of reals. The properties are about position and shape.
- `Program.parse_raw` is the parameter `parse`. Its `results` may be absent (None). A result type's `targets` that is declared but null is folded into "absent", so `density_matrix(target=None)` is modelled, but `target=None` on other result types is not passed.
- `make_bound_circuit`: its returned circuit is discarded by the worker, so the model records only whether it is called (`bindRequested`).
- Tasks.PrepareCircuit: every built circuit is treated as truthy in `if not circuit`.
- Tasks.PrepareCircuit: the URL sources go through the corrected `DownloadCode`, not the code as written. A failed download other than a 401 therefore gives no circuit, and the job writes the circuit error. As written, it raises UnboundLocalError out of `execute` (see Findings and `Tasks.NotFoundRowAsWritten`).
- Tasks.Execute, Routes.UnknownQpuReported: both rest on `Tasks.PrepareCircuit` and so on the corrected download. With the code as written, the "circuit error" case of a failed download does not arise.
- BraketHandler.AwaitResult: polling runs over a finite trace of statuses. When the trace ends with no final status, the result is StillPolling, standing for a loop that has not yet returned. The unbounded wait itself is not modelled.
- The rq queue and the database session are modelled as a sequence of queued jobs and a map of rows. Concurrency is not modelled: the route creates the row after enqueueing, so a worker could look the row up before it exists.
- Routes.ExecuteCircuit: the route returns the `ExecutionResponse` object itself, a Flask `Response` built with no content. The 202 is therefore served with an empty body, and the location travels only in the `Location` header. `ExecutionResponse.to_json` (`ResponseSchemas.ExecutionResponseJson`) is never called on this path.
- Routes.ExecuteCircuit requires a job id the store does not hold yet. rq ids are fresh, and a clash would fail at commit.
- Routes.ExecuteCircuit: an absent `input_params` is passed on as an empty mapping rather than as the empty string the route uses. Both have length 0 and no `token` key, so the route and the `braket_ir` path treat them alike. They differ when code is loaded: `get_circuit(**"")` raises TypeError where `get_circuit(**{})` does not. The opaque loader `load` hides this difference. `parameters.ParameterDictionary` is taken to be the mapping it is given.
- JSON encoding: `json.dumps`/`json.loads` of the payload are the identity on `Payload`. Flask/flask_smorest routing and the marshmallow schemas are not modelled.
- Routes.GetResult: the route is declared with `ResultResponseSchema` as its 200 response, so the object it returns is serialised through that schema, not through `to_json`. A pending row is then served with `result`, `backend` and `shots` as null. The model gives the `ResultResponse` object the route returns. `to_json` is modelled separately (`ResponseSchemas.ResultResponseJson`, `Routes.CompleteRowJson`, `Routes.PendingRowJson`), and it is not on the served path.
- Python's `str.lower`, `str.upper` and `str.strip` are modelled on ASCII. Non-ASCII letters and whitespace are left as they are.
- BraketHandler.DeleteToken: `delete_token` does nothing. The method modifies nothing and returns nothing, so it carries no contract to state.
- `app/request_schemas.py` holds field declarations only. The Option fields of `Routes.ExecutionRequest` are the fields of `ExecutionRequestSchema`, plus `token`. The schema does not declare `token`; the route reads it with `json.get('token')` only.

## Findings

| source | as written | input that shows it | evidently intended | confidence | as-written member | corrected member |
|---|---|---|---|---|---|---|
| app/implementation_handler.py:187-198 | `except Exception` around `urlopen` swallows every error whose message lacks "401", then `res.getcode()` reads `res`, which was never assigned, and raises UnboundLocalError; the `except (HTTPError, URLError): return None` of both URL preparers (lines 70-73, 164-167) can never fire | a URL on any host other than platform.planqk.de whose open fails with "HTTP Error 404: Not Found" | a failed download reaches the preparers as the HTTPError/URLError they catch, so they return None and the worker writes the circuit error | high, not executed | ImplementationHandler.DownloadCodeAsWritten, ImplementationHandler.NotFoundEscapesPreparers, Tasks.NotFoundRowAsWritten | ImplementationHandler.DownloadCode, ImplementationHandler.PrepareFromUrl, ImplementationHandler.PrepareFromBraketIrUrl, Tasks.PrepareCircuit, Tasks.Execute, Routes.UnknownQpuReported |
