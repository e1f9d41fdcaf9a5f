/**
 * app/braket_handler.py: choosing the backend, adding the local simulator's
 * noise, submitting, and polling the task until it reaches a final status.
 */
module BraketHandler {
  import opened Common
  import opened Text
  import opened Circuits

  datatype Backend = LocalSimulator(simulator: string) | AwsDevice(arn: string)

  const LocalSimulatorName: string := "local-simulator"

  /**
   * What `AwsDevice(name)` does: accept the name, reject it with ValueError, or
   * raise something else (missing credentials, no connection, a service error).
   */
  datatype DeviceLookup = Found | NotFound | LookupRaised(error: Raised)

  /**
   * `get_backend`: the density-matrix local simulator for "local-simulator" in
   * any letter case; otherwise the AWS device of that name, or None when
   * `AwsDevice` rejects the name with ValueError. Any other exception from
   * `AwsDevice` is not caught.
   */
  function GetBackend(qpu: string, devices: string -> DeviceLookup): (b: Result<Option<Backend>>)
    ensures b == Ok(Some(LocalSimulator("braket_dm"))) <==> Lower(qpu) == LocalSimulatorName
    ensures Lower(qpu) != LocalSimulatorName ==>
              && (b == Ok(Some(AwsDevice(qpu))) <==> devices(qpu).Found?)
              && (b == Ok(None) <==> devices(qpu).NotFound?)
              && (devices(qpu).LookupRaised? ==> b == Err(devices(qpu).error))
    ensures b.Err? ==> Lower(qpu) != LocalSimulatorName && devices(qpu) == LookupRaised(b.error)
  {
    if Lower(qpu) == LocalSimulatorName then Ok(Some(LocalSimulator("braket_dm")))
    else match devices(qpu)
      case Found => Ok(Some(AwsDevice(qpu)))
      case NotFound => Ok(None)
      case LookupRaised(e) => Err(e)
  }

  /** `delete_token`: there is no account to delete, so it does nothing. */
  method DeleteToken()
  {
  }

  // ---------------------------------------------------------------------------
  // Noise
  // ---------------------------------------------------------------------------

  const NoiseProbability: real := 0.1

  /** `apply_gate_noise`, `apply_readout_noise`, `apply_initialization_noise`, each with the same depolarizing channel. */
  function NoiseCalls(): seq<Call>
  {
    var noise := NoiseV("Depolarizing", NoiseProbability);
    [ Call("apply_gate_noise", [noise], map[]),
      Call("apply_readout_noise", [noise], map[]),
      Call("apply_initialization_noise", [noise], map[]) ]
  }

  /** The calls `execute_job` adds before running: the noise, on the local simulator only. */
  function NoiseFor(backend: Option<Backend>): seq<Call>
  {
    if backend.Some? && backend.value.LocalSimulator? then NoiseCalls() else []
  }

  // ---------------------------------------------------------------------------
  // Polling
  // ---------------------------------------------------------------------------

  const Completed: string := "COMPLETED"
  const Failed: string := "FAILED"
  const Cancelled: string := "CANCELLED"

  predicate IsFinal(status: string)
  {
    status == Completed || status == Failed || status == Cancelled
  }

  /**
   * What the submitted task reports: the statuses `task.state()` returns, one per
   * call, as far as they are known, and the measurement counts of `task.result()`.
   */
  datatype TaskBehaviour = TaskBehaviour(statuses: seq<string>, counts: map<string, int>)

  /** What `execute_job` returns: the counts, None, or nothing yet (still polling when the known statuses run out). */
  datatype JobResult = Counts(counts: map<string, int>) | NoResult | StillPolling

  /** The position of the first final status. */
  function FirstFinal(statuses: seq<string>): (k: Option<nat>)
    ensures k.Some? ==> k.value < |statuses| && IsFinal(statuses[k.value])
    ensures k.Some? ==> forall j :: 0 <= j < k.value ==> !IsFinal(statuses[j])
    ensures k.None? ==> forall j :: 0 <= j < |statuses| ==> !IsFinal(statuses[j])
  {
    if statuses == [] then None
    else if IsFinal(statuses[0]) then Some(0)
    else match FirstFinal(statuses[1..])
      case None => None
      case Some(k) => Some(k + 1)
  }

  /** The result is decided by the first final status: counts on COMPLETED, None on FAILED or CANCELLED. */
  function Verdict(task: TaskBehaviour): JobResult
  {
    match FirstFinal(task.statuses)
    case None => StillPolling
    case Some(k) => if task.statuses[k] == Completed then Counts(task.counts) else NoResult
  }

  /**
   * The `while` loop of `execute_job`. `polls` counts the calls to `task.state()`,
   * `fetches` the calls to `task.result()`.
   */
  method AwaitResult(task: TaskBehaviour) returns (r: JobResult, polls: nat, fetches: nat)
    ensures r == Verdict(task)
    ensures polls == match FirstFinal(task.statuses) case None => |task.statuses| case Some(k) => k + 1
    ensures fetches == if r.Counts? then 1 else 0
  {
    var trace := task.statuses;
    fetches := 0;
    if trace == [] {
      return StillPolling, 0, 0;
    }
    var status := trace[0];
    polls := 1;
    while status != Completed
      invariant 1 <= polls <= |trace|
      invariant status == trace[polls - 1]
      invariant forall j :: 0 <= j < polls - 1 ==> !IsFinal(trace[j])
      decreases |trace| - polls
    {
      if status == Failed || status == Cancelled {
        return NoResult, polls, 0;
      }
      if polls == |trace| {
        return StillPolling, polls, 0;
      }
      status := trace[polls];
      polls := polls + 1;
    }
    fetches := 1;
    r := Counts(task.counts);
  }

  /** A first status that is not final is followed by another poll: the result is that of the remaining statuses. */
  lemma VerdictAfterRunning(task: TaskBehaviour)
    requires task.statuses != [] && !IsFinal(task.statuses[0])
    ensures Verdict(task) == Verdict(task.(statuses := task.statuses[1..]))
  {
    match FirstFinal(task.statuses[1..])
    case None =>
    case Some(k) =>
      assert task.statuses[k + 1] == task.statuses[1..][k];
  }

  /** Any number of statuses that are not final in front of a trace do not change its result. */
  lemma {:induction false} RunningStatusesRepoll(running: seq<string>, task: TaskBehaviour)
    requires forall j :: 0 <= j < |running| ==> !IsFinal(running[j])
    ensures Verdict(task.(statuses := running + task.statuses)) == Verdict(task)
  {
    if running != [] {
      var longer := task.(statuses := running + task.statuses);
      var rest := task.(statuses := running[1..] + task.statuses);
      assert longer.statuses[1..] == rest.statuses;
      assert longer.(statuses := longer.statuses[1..]) == rest;
      VerdictAfterRunning(longer);
      RunningStatusesRepoll(running[1..], task);
    } else {
      assert running + task.statuses == task.statuses;
    }
  }

  /** Once a final status has been seen, what the device would report afterwards does not matter. */
  lemma {:induction false} LaterStatusesIgnored(task: TaskBehaviour, later: seq<string>)
    requires FirstFinal(task.statuses).Some?
    ensures Verdict(task.(statuses := task.statuses + later)) == Verdict(task)
    decreases |task.statuses|
  {
    var s := task.statuses;
    if !IsFinal(s[0]) {
      var longer := task.(statuses := s + later);
      assert longer.statuses[1..] == s[1..] + later;
      VerdictAfterRunning(longer);
      VerdictAfterRunning(task);
      LaterStatusesIgnored(task.(statuses := s[1..]), later);
    }
  }

  /**
   * The outcome of submitting a circuit and polling its task: the verdict of the
   * statuses the task reports, or the exception that `backend.run`,
   * `task.state()` or `task.result()` raised (a device or simulator refusing the
   * circuit, say).
   */
  function Submitted(submission: Result<TaskBehaviour>): Result<JobResult>
  {
    match submission
    case Err(e) => Err(e)
    case Ok(task) => Ok(Verdict(task))
  }

  /**
   * `execute_job`. `run` stands for `backend.run(circuit, shots=shots)` and the
   * task it returns: what the task will report, or what the submission or the
   * polling raises. A missing backend or circuit also makes it raise.
   */
  method ExecuteJob(circuit: Circuit?, shots: int, backend: Option<Backend>,
                    run: (Backend, seq<Call>, int) -> Result<TaskBehaviour>) returns (r: Result<JobResult>)
    modifies circuit
    ensures backend.None? ==> r == Err(AttributeError("run"))
    ensures backend.Some? && circuit == null ==>
              r == Err(if backend.value.LocalSimulator? then AttributeError("apply_gate_noise") else DeviceRejected)
    ensures circuit != null && backend.None? ==> circuit.calls == old(circuit.calls)
    ensures circuit != null && backend.Some? ==>
              && circuit.calls == old(circuit.calls) + (if backend.value.LocalSimulator? then NoiseCalls() else [])
              && r == Submitted(run(backend.value, circuit.calls, shots))
  {
    if backend.Some? && backend.value.LocalSimulator? {
      if circuit == null {
        return Err(AttributeError("apply_gate_noise"));
      }
      var calls := NoiseCalls();
      circuit.Apply(calls[0]);
      circuit.Apply(calls[1]);
      circuit.Apply(calls[2]);
    }
    if backend.None? {
      return Err(AttributeError("run"));
    }
    if circuit == null {
      return Err(DeviceRejected);
    }
    var submission := run(backend.value, circuit.calls, shots);
    if submission.Err? {
      return Err(submission.error);
    }
    var result, _, _ := AwaitResult(submission.value);
    return Ok(result);
  }
}
