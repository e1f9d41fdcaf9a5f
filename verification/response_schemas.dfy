/**
 * app/response_schemas.py: the execute and result response objects and the
 * maps their `to_json` methods build.
 */
module ResponseSchemas {
  import opened Common
  import opened ResultModel

  datatype Json = JString(s: string) | JBool(b: bool) | JInt(i: int) | JPayload(p: Payload)

  datatype ExecutionResponse = ExecutionResponse(location: string)

  /** `ExecutionResponse.to_json` */
  function ExecutionResponseJson(r: ExecutionResponse): (j: map<string, Json>)
    ensures j.Keys == {"Location"}
    ensures "Location" in j && j["Location"] == JString(r.location)
  {
    map["Location" := JString(r.location)]
  }

  datatype ResultResponse = ResultResponse(
    id: string,
    complete: bool,
    result: Option<Payload>,
    backend: Option<string>,
    shots: Option<int>)

  /** `ResultResponse(id, complete)`: the optional fields default to None. */
  function PendingResponse(id: string, complete: bool): (r: ResultResponse)
    ensures r.id == id && r.complete == complete
    ensures r.result.None? && r.backend.None? && r.shots.None?
  {
    ResultResponse(id, complete, None, None, None)
  }

  /** Python truthiness of the decoded payload: a mapping is true when it is not empty. */
  predicate PayloadTruthy(p: Payload)
  {
    match p
    case Histogram(counts) => |counts| > 0
    case ErrorMessage(_) => true
  }

  /** `self.result and self.backend and self.shots` */
  predicate ShowsAll(r: ResultResponse)
  {
    && r.result.Some? && PayloadTruthy(r.result.value)
    && r.backend.Some? && r.backend.value != ""
    && r.shots.Some? && r.shots.value != 0
  }

  const FullKeys: set<string> := {"id", "complete", "result", "backend", "shots"}
  const ShortKeys: set<string> := {"id", "complete"}

  /** `ResultResponse.to_json`: the five-key form when result, backend and shots are all truthy, else only id and complete. */
  function ResultResponseJson(r: ResultResponse): (j: map<string, Json>)
    ensures "id" in j && j["id"] == JString(r.id)
    ensures "complete" in j && j["complete"] == JBool(r.complete)
    ensures j.Keys == FullKeys <==> ShowsAll(r)
    ensures !ShowsAll(r) ==> j.Keys == ShortKeys
    ensures ShowsAll(r) ==>
              && "result" in j && j["result"] == JPayload(r.result.value)
              && "backend" in j && j["backend"] == JString(r.backend.value)
              && "shots" in j && j["shots"] == JInt(r.shots.value)
  {
    if ShowsAll(r) then
      map["id" := JString(r.id), "complete" := JBool(r.complete), "result" := JPayload(r.result.value),
          "backend" := JString(r.backend.value), "shots" := JInt(r.shots.value)]
    else
      map["id" := JString(r.id), "complete" := JBool(r.complete)]
  }
}
